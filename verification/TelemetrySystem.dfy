/** A whole benchmark run's telemetry, interleaved: any number of bots, the ramp that spawns
    them, the bounded channel, the ingester, and the shutdown of all three. */
module TelemetrySystem {
  import opened Telemetry

  /** Where a bot is: connecting, between orders, waiting for a reply, holding the sample of
      the reply, or gone. */
  datatype Bot = Connecting | Idle | Waiting | Holding(sample: Sample) | Finished

  datatype Exit = OnContext | OnStop | OnClose

  datatype Ingester = Listening | Draining | Done(exit: Exit)

  datatype System = System(
    bots: seq<Bot>,
    toSpawn: nat,           // bots the ramp still has to spawn
    fleetCancelled: bool,   // the fleet's context
    contextDone: bool,      // the run's context
    traffic: Traffic,
    capacity: nat,
    closed: bool,           // the sample channel
    crashed: bool,          // a send on the closed channel panics
    stopRequested: bool,
    ingester: Ingester,
    meter: Meter,
    received: seq<Sample>)

  datatype Action =
    | Spawn | RampCancelled
    | Connect(bot: nat, ok: bool) | Begin(bot: nat) | GetReply(bot: nat, sample: Sample, misprice: bool)
    | Offer(bot: nat) | Quit(bot: nat)
    | CancelFleet | CancelContext | CloseSamples | RequestStop
    | Receive | Tick(q: Quantiles) | SeeContext(q: Quantiles) | SeeClosed(q: Quantiles)
    | SeeStop | Drain | DrainEnd(q: Quantiles)

  /** Before the first bot: nothing counted, nothing closed. */
  predicate Initial(s: System) {
    && s.bots == [] && !s.fleetCancelled && !s.contextDone && !s.closed && !s.crashed && !s.stopRequested
    && s.traffic.sent == s.traffic.acked == s.traffic.fillErr == s.traffic.prioErr == s.traffic.dropped == 0
    && s.traffic.accepted == s.traffic.chan == s.received == []
    && s.ingester == Listening && Unused(s.meter)
  }

  predicate Enabled(s: System, a: Action) {
    !s.crashed &&
    match a
    case Spawn => s.toSpawn > 0
    case RampCancelled => s.toSpawn > 0 && s.fleetCancelled
    case Connect(i, _) => i < |s.bots| && s.bots[i] == Connecting
    case Begin(i) => i < |s.bots| && s.bots[i] == Idle
    case GetReply(i, _, _) => i < |s.bots| && s.bots[i] == Waiting
    case Offer(i) => i < |s.bots| && s.bots[i].Holding?
    case Quit(i) => i < |s.bots| && s.bots[i] == Idle && s.fleetCancelled
    case CancelFleet => true
    case CancelContext => true
    case CloseSamples => s.fleetCancelled && !s.closed
    case RequestStop => s.closed
    case Receive => s.ingester == Listening && s.traffic.chan != []
    case Tick(_) => s.ingester == Listening
    case SeeContext(_) => s.ingester == Listening && s.contextDone
    case SeeClosed(_) => s.ingester == Listening && s.closed && s.traffic.chan == []
    case SeeStop => s.ingester == Listening && s.stopRequested
    case Drain => s.ingester == Draining && s.traffic.chan != []
    case DrainEnd(_) => s.ingester == Draining && s.traffic.chan == []
  }

  /** The quantiles the histogram answers with when the action flushes. */
  function FlushOf(a: Action): seq<Quantiles> {
    match a
    case Tick(q) => [q]
    case SeeContext(q) => [q]
    case SeeClosed(q) => [q]
    case DrainEnd(q) => [q]
    case _ => []
  }

  function TakeIn(s: System): System
    requires s.traffic.chan != []
  {
    var x := s.traffic.chan[0];
    s.(traffic := s.traffic.(chan := s.traffic.chan[1..]), meter := Ingested(s.meter, x), received := s.received + [x])
  }

  function Next(s: System, a: Action): System
    requires Enabled(s, a)
  {
    match a
    case Spawn => s.(bots := s.bots + [Connecting], toSpawn := s.toSpawn - 1)
    case RampCancelled => s.(toSpawn := 0)
    case Connect(i, ok) => s.(bots := s.bots[i := if ok then Idle else Finished])
    case Begin(i) => s.(bots := s.bots[i := Waiting], traffic := Begun(s.traffic))
    case GetReply(i, x, misprice) => s.(bots := s.bots[i := Holding(x)], traffic := Replied(s.traffic, x, misprice))
    case Offer(i) =>
      if s.closed then s.(crashed := true)
      else s.(bots := s.bots[i := Idle], traffic := Offered(s.traffic, s.bots[i].sample, s.capacity))
    case Quit(i) => s.(bots := s.bots[i := Finished])
    case CancelFleet => s.(fleetCancelled := true)
    case CancelContext => s.(fleetCancelled := true, contextDone := true)
    case CloseSamples => s.(closed := true)
    case RequestStop => s.(stopRequested := true)
    case Receive => TakeIn(s)
    case Tick(q) => s.(meter := Flushed(s.meter, q))
    case SeeContext(q) => s.(meter := Flushed(s.meter, q), ingester := Done(OnContext))
    case SeeClosed(q) => s.(meter := Flushed(s.meter, q), ingester := Done(OnClose))
    case SeeStop => s.(ingester := Draining)
    case Drain => TakeIn(s)
    case DrainEnd(q) => s.(meter := Flushed(s.meter, q), ingester := Done(OnStop))
  }

  predicate Feasible(s: System, run: seq<Action>)
    decreases |run|
  {
    run == [] || (Enabled(s, run[0]) && Feasible(Next(s, run[0]), run[1..]))
  }

  function After(s: System, run: seq<Action>): System
    requires Feasible(s, run)
    decreases |run|
  {
    if run == [] then s else After(Next(s, run[0]), run[1..])
  }

  // ---------- What every step keeps ----------

  /** Bots in the given stage of an order. */
  function CountWaiting(bots: seq<Bot>): nat {
    if bots == [] then 0 else CountWaiting(bots[1..]) + if bots[0] == Waiting then 1 else 0
  }

  function CountHolding(bots: seq<Bot>): nat {
    if bots == [] then 0 else CountHolding(bots[1..]) + if bots[0].Holding? then 1 else 0
  }

  function CountSuccessful(bots: seq<Bot>): nat {
    if bots == [] then 0 else CountSuccessful(bots[1..]) + if bots[0].Holding? && bots[0].sample.success then 1 else 0
  }

  /** The sending side: orders sent are answered, failed or awaited; samples of completed
      orders are accepted, dropped or still held. */
  predicate SendersAddUp(s: System) {
    var t := s.traffic;
    && t.sent == t.acked + t.fillErr + CountWaiting(s.bots)
    && t.acked + t.fillErr == |t.accepted| + t.dropped + CountHolding(s.bots)
  }

  /** Successful samples accepted or held come from acknowledged orders, the others from failed
      ones; only dropped samples are missing. */
  predicate OutcomesAddUp(s: System) {
    var t := s.traffic;
    && Successes(t.accepted) + CountSuccessful(s.bots) <= t.acked
    && |t.accepted| - Successes(t.accepted) + CountHolding(s.bots) - CountSuccessful(s.bots) <= t.fillErr
  }

  /** The channel passes on everything it accepted, in order. */
  predicate ChannelFaithful(s: System) {
    s.traffic.accepted == s.received + s.traffic.chan && |s.traffic.chan| <= s.capacity
  }

  /** What came in since the last flush. */
  function Window(s: System): seq<Sample> {
    if 0 <= s.meter.windowSent <= |s.received| then s.received[|s.received| - s.meter.windowSent..] else []
  }

  /** The receiving side. */
  predicate ReceiverAddsUp(s: System) {
    && Sound(s.meter)
    && s.meter.totalSent == |s.received|
    && s.meter.totalAcked == Successes(s.received)
    && (s.ingester.Done? ==> AddUp(s.meter.flushed, s.meter))
  }

  predicate WindowHeld(s: System) {
    s.meter.windowSent <= |s.received| && Holds(s.meter, Window(s))
  }

  predicate InShutdownOrder(s: System) {
    && (s.stopRequested ==> s.closed) && (s.closed ==> s.fleetCancelled) && (s.contextDone ==> s.fleetCancelled)
    && (s.ingester == Draining || s.ingester == Done(OnStop) ==> s.stopRequested)
    && (s.ingester == Done(OnClose) ==> s.closed)
    && (s.ingester == Done(OnStop) || s.ingester == Done(OnClose) ==> s.traffic.chan == [])
  }

  predicate Invariant(s: System) {
    && SendersAddUp(s) && OutcomesAddUp(s) && ChannelFaithful(s) && ReceiverAddsUp(s) && WindowHeld(s)
    && InShutdownOrder(s)
  }

  lemma {:induction false} CountUpdate(bots: seq<Bot>, i: nat, b: Bot)
    requires i < |bots|
    ensures CountWaiting(bots[i := b])
            == CountWaiting(bots) - (if bots[i] == Waiting then 1 else 0) + (if b == Waiting then 1 else 0)
    ensures CountHolding(bots[i := b])
            == CountHolding(bots) - (if bots[i].Holding? then 1 else 0) + (if b.Holding? then 1 else 0)
  {
    if i == 0 {
      assert bots[i := b][1..] == bots[1..];
    } else {
      assert bots[i := b][1..] == bots[1..][i - 1 := b];
      CountUpdate(bots[1..], i - 1, b);
    }
  }

  lemma {:induction false} CountSpawned(bots: seq<Bot>)
    ensures CountWaiting(bots + [Connecting]) == CountWaiting(bots)
    ensures CountHolding(bots + [Connecting]) == CountHolding(bots)
  {
    if bots != [] {
      assert (bots + [Connecting])[1..] == bots[1..] + [Connecting];
      CountSpawned(bots[1..]);
    } else {
      assert [Connecting][1..] == [];
    }
  }

  lemma {:induction false} SuccessfulUpdate(bots: seq<Bot>, i: nat, b: Bot)
    requires i < |bots|
    ensures CountSuccessful(bots[i := b])
            == CountSuccessful(bots) - (if bots[i].Holding? && bots[i].sample.success then 1 else 0)
               + (if b.Holding? && b.sample.success then 1 else 0)
  {
    if i == 0 {
      assert bots[i := b][1..] == bots[1..];
    } else {
      assert bots[i := b][1..] == bots[1..][i - 1 := b];
      SuccessfulUpdate(bots[1..], i - 1, b);
    }
  }

  lemma {:induction false} SuccessfulSpawned(bots: seq<Bot>)
    ensures CountSuccessful(bots + [Connecting]) == CountSuccessful(bots)
  {
    if bots != [] {
      assert (bots + [Connecting])[1..] == bots[1..] + [Connecting];
      SuccessfulSpawned(bots[1..]);
    } else {
      assert [Connecting][1..] == [];
    }
  }

  lemma TakeInKeeps(s: System)
    requires ChannelFaithful(s) && ReceiverAddsUp(s) && !s.ingester.Done? && s.traffic.chan != []
    ensures ChannelFaithful(TakeIn(s)) && ReceiverAddsUp(TakeIn(s))
  {
    var x := s.traffic.chan[0];
    IngestKeepsSound(s.meter, x);
    assert (s.received + [x])[..|s.received|] == s.received;
    assert s.traffic.chan == [x] + s.traffic.chan[1..];
  }

  lemma WindowCounted(s: System)
    requires WindowHeld(s)
    ensures 0 <= s.meter.windowSent <= |s.received|
  {
  }

  lemma WindowGrows(s: System)
    requires s.traffic.chan != [] && 0 <= s.meter.windowSent <= |s.received|
    ensures var n := TakeIn(s);
            Window(n) == Window(s) + [s.traffic.chan[0]]
            && n.received[..|n.received| - |Window(n)|] == s.received[..|s.received| - |Window(s)|]
  {
    assert Ingested(s.meter, s.traffic.chan[0]).windowSent == s.meter.windowSent + 1;
  }

  lemma TakeInHolds(s: System)
    requires WindowHeld(s) && s.traffic.chan != []
    ensures WindowHeld(TakeIn(s))
  {
    WindowCounted(s);
    hide Holds, Ingested;
    WindowGrows(s);
    IngestHolds(s.meter, Window(s), s.traffic.chan[0]);
    WindowFits(s);
  }

  lemma WindowFits(s: System)
    requires s.traffic.chan != [] && 0 <= s.meter.windowSent <= |s.received|
    ensures TakeIn(s).meter.windowSent <= |TakeIn(s).received|
  {
  }

  lemma FlushHolds(s: System, q: Quantiles, ingester: Ingester)
    requires Sound(s.meter) && WindowHeld(s)
    ensures WindowHeld(s.(meter := Flushed(s.meter, q), ingester := ingester))
  {
    FlushReports(s.meter, Window(s), q);
  }

  lemma StepHolds(s: System, a: Action)
    requires Sound(s.meter) && WindowHeld(s) && Enabled(s, a)
    ensures WindowHeld(Next(s, a))
  {
    hide Sound, Holds, Flushed, Ingested;
    match a
    case Receive => TakeInHolds(s);
    case Drain => TakeInHolds(s);
    case Tick(q) => FlushHolds(s, q, s.ingester);
    case SeeContext(q) => FlushHolds(s, q, Done(OnContext));
    case SeeClosed(q) => FlushHolds(s, q, Done(OnClose));
    case DrainEnd(q) => FlushHolds(s, q, Done(OnStop));
    case _ =>
  }

  lemma FlushKeeps(s: System, q: Quantiles, ingester: Ingester)
    requires ReceiverAddsUp(s)
    ensures ReceiverAddsUp(s.(meter := Flushed(s.meter, q), ingester := ingester))
  {
    FlushKeepsSound(s.meter, q);
  }

  lemma BotStepKeeps(s: System, a: Action)
    requires SendersAddUp(s) && ChannelFaithful(s) && ReceiverAddsUp(s) && InShutdownOrder(s) && Enabled(s, a)
    requires a.Spawn? || a.RampCancelled? || a.Connect? || a.Begin? || a.GetReply? || a.Offer? || a.Quit?
    ensures var n := Next(s, a); SendersAddUp(n) && ChannelFaithful(n) && ReceiverAddsUp(n) && InShutdownOrder(n)
  {
    match a
    case Spawn => CountSpawned(s.bots);
    case RampCancelled =>
    case Connect(i, ok) => CountUpdate(s.bots, i, if ok then Idle else Finished);
    case Begin(i) => CountUpdate(s.bots, i, Waiting);
    case GetReply(i, x, _) => CountUpdate(s.bots, i, Holding(x));
    case Offer(i) => CountUpdate(s.bots, i, Idle);
    case Quit(i) => CountUpdate(s.bots, i, Finished);
    case _ =>
  }

  lemma SuccessesOffered(xs: seq<Sample>, x: Sample)
    ensures Successes(xs + [x]) == Successes(xs) + if x.success then 1 else 0
  {
    assert (xs + [x])[..|xs|] == xs;
  }

  lemma BotStepCounts(s: System, a: Action)
    requires OutcomesAddUp(s) && Enabled(s, a)
    requires a.Spawn? || a.RampCancelled? || a.Connect? || a.Begin? || a.GetReply? || a.Offer? || a.Quit?
    ensures OutcomesAddUp(Next(s, a))
  {
    match a
    case Spawn =>
      CountSpawned(s.bots);
      SuccessfulSpawned(s.bots);
    case RampCancelled =>
    case Connect(i, ok) => BotMoved(s.bots, i, if ok then Idle else Finished);
    case Begin(i) => BotMoved(s.bots, i, Waiting);
    case GetReply(i, x, _) => BotMoved(s.bots, i, Holding(x));
    case Offer(i) =>
      BotMoved(s.bots, i, Idle);
      SuccessesOffered(s.traffic.accepted, s.bots[i].sample);
    case Quit(i) => BotMoved(s.bots, i, Finished);
    case _ =>
  }

  lemma BotMoved(bots: seq<Bot>, i: nat, b: Bot)
    requires i < |bots|
    ensures CountHolding(bots[i := b])
            == CountHolding(bots) - (if bots[i].Holding? then 1 else 0) + (if b.Holding? then 1 else 0)
    ensures CountSuccessful(bots[i := b])
            == CountSuccessful(bots) - (if bots[i].Holding? && bots[i].sample.success then 1 else 0)
               + (if b.Holding? && b.sample.success then 1 else 0)
  {
    CountUpdate(bots, i, b);
    SuccessfulUpdate(bots, i, b);
  }

  lemma ControlKeeps(s: System, a: Action)
    requires SendersAddUp(s) && OutcomesAddUp(s) && ChannelFaithful(s) && ReceiverAddsUp(s) && InShutdownOrder(s)
    requires Enabled(s, a)
    requires a.CancelFleet? || a.CancelContext? || a.CloseSamples? || a.RequestStop? || a.SeeStop?
    ensures var n := Next(s, a);
            SendersAddUp(n) && OutcomesAddUp(n) && ChannelFaithful(n) && ReceiverAddsUp(n) && InShutdownOrder(n)
  {
  }

  lemma MeterKeeps(s: System, a: Action)
    requires SendersAddUp(s) && OutcomesAddUp(s) && ChannelFaithful(s) && ReceiverAddsUp(s) && InShutdownOrder(s)
    requires Enabled(s, a) && (a.Receive? || a.Drain? || FlushOf(a) != [])
    ensures var n := Next(s, a);
            SendersAddUp(n) && OutcomesAddUp(n) && ChannelFaithful(n) && ReceiverAddsUp(n) && InShutdownOrder(n)
  {
    hide Sound, Flushed, Ingested;
    match a
    case Receive => TakeInKeeps(s);
    case Drain => TakeInKeeps(s);
    case Tick(q) => FlushKeeps(s, q, s.ingester);
    case SeeContext(q) => FlushKeeps(s, q, Done(OnContext));
    case SeeClosed(q) => FlushKeeps(s, q, Done(OnClose));
    case DrainEnd(q) => FlushKeeps(s, q, Done(OnStop));
  }

  lemma StepKeeps(s: System, a: Action)
    requires Invariant(s) && Enabled(s, a)
    ensures Invariant(Next(s, a))
  {
    hide SendersAddUp, OutcomesAddUp, ChannelFaithful, WindowHeld, InShutdownOrder, Sound, Next, AddUp;
    StepHolds(s, a);
    if a.Receive? || a.Drain? || FlushOf(a) != [] {
      MeterKeeps(s, a);
    } else if a.CancelFleet? || a.CancelContext? || a.CloseSamples? || a.RequestStop? || a.SeeStop? {
      ControlKeeps(s, a);
    } else {
      BotStepKeeps(s, a);
      BotStepCounts(s, a);
    }
  }

  lemma {:induction false} RunKeeps(s: System, run: seq<Action>)
    requires Invariant(s) && Feasible(s, run)
    ensures Invariant(After(s, run))
    decreases |run|
  {
    if run != [] {
      StepKeeps(s, run[0]);
      RunKeeps(Next(s, run[0]), run[1..]);
    }
  }

  lemma InitialInvariant(s: System)
    requires Initial(s)
    ensures Invariant(s)
  {
  }

  // ---------- Exact accounting ----------

  /** No bot is left, and none will come. */
  predicate Quiescent(s: System) {
    s.toSpawn == 0 && forall i :: 0 <= i < |s.bots| ==> s.bots[i] == Finished
  }

  lemma {:induction false} NobodyCounts(bots: seq<Bot>)
    requires forall i :: 0 <= i < |bots| ==> bots[i] == Finished
    ensures CountWaiting(bots) == CountHolding(bots) == CountSuccessful(bots) == 0
  {
    if bots != [] {
      NobodyCounts(bots[1..]);
    }
  }

  lemma {:induction false} SuccessesSplit(xs: seq<Sample>, ys: seq<Sample>)
    ensures Successes(xs + ys) == Successes(xs) + Successes(ys)
  {
    if ys == [] {
      assert xs + ys == xs;
    } else {
      SuccessesSplit(xs, ys[..|ys| - 1]);
      assert (xs + ys)[..|xs + ys| - 1] == xs + ys[..|ys| - 1];
    }
  }

  /** Wherever the schedule goes, at every moment: windows reported and window open make up
      all that was received; that and what the channel holds is all it accepted; and that,
      what was dropped and what bots still carry is every order ever begun. */
  lemma AccountsExact(s0: System, run: seq<Action>)
    requires Initial(s0) && Feasible(s0, run)
    ensures var s := After(s0, run);
            var m := s.meter;
            && SumOf(m.flushed, Sent) + m.windowSent == |s.received|
            && |s.received| + |s.traffic.chan| == |s.traffic.accepted|
            && s.traffic.sent
               == |s.traffic.accepted| + s.traffic.dropped + CountHolding(s.bots) + CountWaiting(s.bots)
            && AllGenuine(m.flushed)
  {
    InitialInvariant(s0);
    RunKeeps(s0, run);
  }

  /** Once the ingester has finished and the bots are gone, reported orders, orders abandoned
      in the channel and dropped samples account for every order sent. */
  lemma FinalAccounts(s0: System, run: seq<Action>)
    requires Initial(s0) && Feasible(s0, run)
    requires var s := After(s0, run); s.ingester.Done? && Quiescent(s)
    ensures var s := After(s0, run);
            var t, f := s.traffic, s.meter.flushed;
            && t.sent == t.acked + t.fillErr
            && t.sent == SumOf(f, Sent) + |t.chan| + t.dropped
            && SumOf(f, Sent) == SumOf(f, Acked) + SumOf(f, FillErrors)
            && SumOf(f, Acked) + Successes(t.chan) == Successes(t.accepted)
            && t.acked - t.dropped <= Successes(t.accepted) <= t.acked
  {
    InitialInvariant(s0);
    RunKeeps(s0, run);
    var s := After(s0, run);
    NobodyCounts(s.bots);
    SuccessesSplit(s.received, s.traffic.chan);
  }

  /** In the normal order, ended by the stop signal or the closed channel, nothing the
      channel accepted goes unreported. */
  lemma NormalStopReportsAll(s0: System, run: seq<Action>)
    requires Initial(s0) && Feasible(s0, run)
    requires var s := After(s0, run); s.ingester == Done(OnStop) || s.ingester == Done(OnClose)
    ensures var s := After(s0, run);
            var t, f := s.traffic, s.meter.flushed;
            && SumOf(f, Sent) == |t.accepted| && SumOf(f, Acked) == Successes(t.accepted)
            && (Quiescent(s) ==> SumOf(f, Sent) == t.acked + t.fillErr - t.dropped && t.sent == t.acked + t.fillErr)
  {
    InitialInvariant(s0);
    RunKeeps(s0, run);
    var s := After(s0, run);
    assert s.traffic.accepted == s.received;
    if Quiescent(s) {
      NobodyCounts(s.bots);
    }
  }

  // ---------- Bots, one by one ----------

  /** The actions of one bot. */
  predicate ActsFor(a: Action, i: nat) {
    match a
    case Connect(j, _) => i == j
    case Begin(j) => i == j
    case GetReply(j, _, _) => i == j
    case Offer(j) => i == j
    case Quit(j) => i == j
    case _ => false
  }

  lemma BotsStay(s: System, a: Action, i: nat)
    requires Enabled(s, a) && i < |s.bots|
    ensures var n := Next(s, a);
            && i < |n.bots| && (!ActsFor(a, i) ==> n.bots[i] == s.bots[i])
            && (s.bots[i] == Finished ==> !ActsFor(a, i))
  {
    hide Ingested, Flushed, Offered, Replied, Begun;
  }

  /** A bot that has gone does nothing more, on any schedule. */
  lemma {:induction false} GoneForGood(s: System, run: seq<Action>, i: nat)
    requires Feasible(s, run) && i < |s.bots| && s.bots[i] == Finished
    ensures i < |After(s, run).bots| && After(s, run).bots[i] == Finished
    ensures forall k :: 0 <= k < |run| ==> !ActsFor(run[k], i)
    decreases |run|
  {
    hide Next, Enabled, ActsFor;
    if run != [] {
      BotsStay(s, run[0], i);
      GoneForGood(Next(s, run[0]), run[1..], i);
      assert forall k :: 1 <= k < |run| ==> run[k] == run[1..][k - 1];
    }
  }

  /** A bot whose connection fails, and one that quits, sends nothing from then on. */
  lemma LeaversSendNothing(s: System, i: nat, quits: bool, run: seq<Action>)
    requires var a := if quits then Quit(i) else Connect(i, false);
             Enabled(s, a) && Feasible(Next(s, a), run)
    ensures forall k :: 0 <= k < |run| ==> !ActsFor(run[k], i)
  {
    GoneForGood(Next(s, if quits then Quit(i) else Connect(i, false)), run, i);
  }

  lemma UncancelledStep(s: System, a: Action)
    requires Enabled(s, a) && !Next(s, a).fleetCancelled
    ensures var n := Next(s, a);
            && !s.fleetCancelled && |n.bots| + n.toSpawn == |s.bots| + s.toSpawn && |s.bots| <= |n.bots|
            && (forall i :: 0 <= i < |s.bots| && s.bots[i] != Connecting && s.bots[i] != Finished ==>
                  n.bots[i] != Connecting && n.bots[i] != Finished)
  {
  }

  /** Until the fleet is cancelled, no bot is lost on the ramp, and none that has connected
      leaves. */
  lemma {:induction false} BotsWorkUntilCancelled(s: System, run: seq<Action>)
    requires Feasible(s, run) && !After(s, run).fleetCancelled
    ensures var n := After(s, run);
            && !s.fleetCancelled && |n.bots| + n.toSpawn == |s.bots| + s.toSpawn && |s.bots| <= |n.bots|
            && (forall i :: 0 <= i < |s.bots| && s.bots[i] != Connecting && s.bots[i] != Finished ==>
                  n.bots[i] != Connecting && n.bots[i] != Finished)
    decreases |run|
  {
    hide Next, Enabled;
    if run != [] {
      BotsWorkUntilCancelled(Next(s, run[0]), run[1..]);
      UncancelledStep(s, run[0]);
    }
  }

  /** Answers at a price worse than the order's limit. */
  function Mispriced(run: seq<Action>): nat {
    if run == [] then 0
    else Mispriced(run[1..]) + if run[0].GetReply? && run[0].sample.success && run[0].misprice then 1 else 0
  }

  lemma {:induction false} MispricesCounted(s: System, run: seq<Action>)
    requires Feasible(s, run)
    ensures After(s, run).traffic.prioErr == s.traffic.prioErr + Mispriced(run)
    decreases |run|
  {
    if run != [] {
      MispricesCounted(Next(s, run[0]), run[1..]);
    }
  }

  // ---------- What is reported ----------

  /** A window that was flushed, with the quantiles at that time. */
  datatype Report = Report(window: seq<Sample>, q: Quantiles)

  /** The windows, other than empty ones, that a run flushes. */
  function Flushes(s: System, run: seq<Action>): seq<Report>
    requires Feasible(s, run)
    decreases |run|
  {
    if run == [] then []
    else (if FlushOf(run[0]) != [] && Window(s) != [] then [Report(Window(s), FlushOf(run[0])[0])] else [])
         + Flushes(Next(s, run[0]), run[1..])
  }

  function Joined(rs: seq<Report>): seq<Sample> {
    if rs == [] then [] else rs[0].window + Joined(rs[1..])
  }

  predicate AllReport(snaps: seq<Snapshot>, rs: seq<Report>) {
    |snaps| == |rs| && forall i :: 0 <= i < |rs| ==> Reports(snaps[i], rs[i].window, rs[i].q)
  }

  /** What came in up to the last flush. */
  function Closed(s: System): seq<Sample> {
    s.received[..|s.received| - |Window(s)|]
  }

  lemma StepReports(s: System, a: Action)
    requires Invariant(s) && Enabled(s, a)
    ensures var n := Next(s, a);
            var newly := Flushes(s, [a]);
            && s.meter.flushed <= n.meter.flushed && AllReport(n.meter.flushed[|s.meter.flushed|..], newly)
            && Closed(n) == Closed(s) + Joined(newly)
  {
    hide Sound, Holds, Reports, SendersAddUp, OutcomesAddUp, InShutdownOrder;
    WindowCounted(s);
    var n := Next(s, a);
    assert [a][1..] == [];
    if FlushOf(a) != [] {
      FlushReports(s.meter, Window(s), FlushOf(a)[0]);
      FlushExtends(s, a);
      assert Joined([]) == [] && Window(s) + [] == Window(s);
    } else {
      StepExtends(s, a);
    }
  }

  lemma FlushExtends(s: System, a: Action)
    requires Enabled(s, a) && FlushOf(a) != [] && 0 <= s.meter.windowSent <= |s.received|
    ensures var n := Next(s, a);
            n.meter == Flushed(s.meter, FlushOf(a)[0]) && Closed(n) == Closed(s) + Window(s) && Window(n) == []
  {
  }

  lemma StepExtends(s: System, a: Action)
    requires Enabled(s, a) && FlushOf(a) == [] && 0 <= s.meter.windowSent <= |s.received|
    ensures var n := Next(s, a); n.meter.flushed == s.meter.flushed && Closed(n) == Closed(s)
  {
    hide Window, Next;
    if a.Receive? || a.Drain? {
      WindowGrows(s);
      TakesIn(s, a);
    } else {
      OthersLeaveMeter(s, a);
    }
  }

  lemma TakesIn(s: System, a: Action)
    requires Enabled(s, a) && (a.Receive? || a.Drain?)
    ensures Next(s, a) == TakeIn(s) && TakeIn(s).meter.flushed == s.meter.flushed
  {
  }

  lemma OthersLeaveMeter(s: System, a: Action)
    requires Enabled(s, a) && FlushOf(a) == [] && !a.Receive? && !a.Drain?
    ensures var n := Next(s, a); n.meter == s.meter && n.received == s.received && Window(n) == Window(s)
  {
  }

  lemma {:induction false} RunReports(s: System, run: seq<Action>)
    requires Invariant(s) && Feasible(s, run)
    ensures var n := After(s, run);
            && s.meter.flushed <= n.meter.flushed && AllReport(n.meter.flushed[|s.meter.flushed|..], Flushes(s, run))
            && Closed(n) == Closed(s) + Joined(Flushes(s, run))
    decreases |run|
  {
    hide Invariant, AllReport, Next, Enabled, Window, FlushOf, Closed;
    if run == [] {
      NothingReported(s.meter.flushed);
      assert Closed(s) + [] == Closed(s);
    } else {
      var m := Next(s, run[0]);
      StepReports(s, run[0]);
      StepKeeps(s, run[0]);
      RunReports(m, run[1..]);
      hide Flushes, Joined;
      var first, rest := Flushes(s, [run[0]]), Flushes(m, run[1..]);
      FlushesOnward(s, run);
      JoinedSplit(first, rest);
      ReportsJoined(s.meter.flushed, m.meter.flushed, After(s, run).meter.flushed, first, rest);
    }
  }

  lemma FirstFlushes(s: System, a: Action)
    requires Enabled(s, a)
    ensures Flushes(s, [a])
            == if FlushOf(a) != [] && Window(s) != [] then [Report(Window(s), FlushOf(a)[0])] else []
  {
    assert [a][1..] == [];
  }

  lemma FlushesOnward(s: System, run: seq<Action>)
    requires run != [] && Feasible(s, run)
    ensures Flushes(s, run) == Flushes(s, [run[0]]) + Flushes(Next(s, run[0]), run[1..])
  {
    hide Next, Enabled, Window, FlushOf;
    FirstFlushes(s, run[0]);
  }

  lemma NothingReported(snaps: seq<Snapshot>)
    ensures AllReport(snaps[|snaps|..], []) && Joined([]) == []
  {
  }

  lemma {:induction false} JoinedSplit(a: seq<Report>, b: seq<Report>)
    ensures Joined(a + b) == Joined(a) + Joined(b)
  {
    if a == [] {
      assert a + b == b;
    } else {
      JoinedSplit(a[1..], b);
      assert (a + b)[0] == a[0] && (a + b)[1..] == a[1..] + b;
      Regrouped(a[0].window, Joined(a[1..]), Joined(b));
    }
  }

  lemma Regrouped(x: seq<Sample>, y: seq<Sample>, z: seq<Sample>)
    ensures x + (y + z) == (x + y) + z
  {
  }

  lemma ReportsJoined(s: seq<Snapshot>, m: seq<Snapshot>, n: seq<Snapshot>, a: seq<Report>, b: seq<Report>)
    requires s <= m <= n && AllReport(m[|s|..], a) && AllReport(n[|m|..], b)
    ensures s <= n && AllReport(n[|s|..], a + b)
  {
    assert n[|s|..] == m[|s|..] + n[|m|..];
  }

  /** On every schedule what was received is cut into windows, in order and without a gap, by
      the flushes; each window but an empty one is reported once, with its own counts, and with
      the quantiles the histogram then gave if any latency was in it, with zeroes if none. */
  lemma WindowsReported(s0: System, run: seq<Action>)
    requires Initial(s0) && Feasible(s0, run)
    ensures var s := After(s0, run);
            && AllReport(s.meter.flushed, Flushes(s0, run))
            && s.received == Joined(Flushes(s0, run)) + Window(s)
            && s.meter.recorded == Trackables(Window(s))
  {
    hide After, Feasible, Flushes, AllReport, Invariant;
    InitialInvariant(s0);
    RunKeeps(s0, run);
    RunReports(s0, run);
    var s := After(s0, run);
    assert s.meter.flushed[0..] == s.meter.flushed;
    WindowRecorded(s);
  }

  lemma WindowRecorded(s: System)
    requires Invariant(s)
    ensures s.received == Closed(s) + Window(s) && s.meter.recorded == Trackables(Window(s))
  {
    hide SendersAddUp, OutcomesAddUp, ReceiverAddsUp;
  }

  // ---------- Leaving by the context ----------

  /** How many samples the channel accepts along a run. */
  function Accepts(s: System, run: seq<Action>): nat
    requires Feasible(s, run)
    decreases |run|
  {
    if run == [] then 0
    else Accepts(Next(s, run[0]), run[1..])
         + if run[0].Offer? && !s.closed && |s.traffic.chan| < s.capacity then 1 else 0
  }

  lemma {:induction false} AfterDone(s: System, run: seq<Action>)
    requires s.ingester.Done? && Feasible(s, run)
    ensures var n := After(s, run);
            n.ingester == s.ingester && n.meter == s.meter
            && |n.traffic.accepted| == |s.traffic.accepted| + Accepts(s, run)
    decreases |run|
  {
    if run != [] {
      DoneStays(s, run[0]);
      AfterDone(Next(s, run[0]), run[1..]);
    }
  }

  lemma DoneStays(s: System, a: Action)
    requires s.ingester.Done? && Enabled(s, a)
    ensures var n := Next(s, a);
            n.ingester == s.ingester && n.meter == s.meter
            && |n.traffic.accepted|
               == |s.traffic.accepted| + if a.Offer? && !s.closed && |s.traffic.chan| < s.capacity then 1 else 0
  {
  }

  /** An ingester that leaves by the context loses what the channel holds at that moment and
      what it accepts from then on, and nothing else: its reports are complete exactly when both
      are nothing. */
  lemma ContextExitLoses(s0: System, past: seq<Action>, q: Quantiles, later: seq<Action>)
    requires Initial(s0) && Feasible(s0, past) && Enabled(After(s0, past), SeeContext(q))
    requires Feasible(Next(After(s0, past), SeeContext(q)), later)
    ensures var s := After(s0, past);
            var left := Next(s, SeeContext(q));
            var n := After(left, later);
            && |n.traffic.accepted| == SumOf(n.meter.flushed, Sent) + |s.traffic.chan| + Accepts(left, later)
            && (SumOf(n.meter.flushed, Sent) == |n.traffic.accepted| <==>
                s.traffic.chan == [] && Accepts(left, later) == 0)
  {
    InitialInvariant(s0);
    RunKeeps(s0, past);
    var s := After(s0, past);
    StepKeeps(s, SeeContext(q));
    AfterDone(Next(s, SeeContext(q)), later);
  }

  lemma Onward(s: System, a: Action, rest: seq<Action>)
    requires Enabled(s, a) && Feasible(Next(s, a), rest)
    ensures Feasible(s, [a] + rest) && After(s, [a] + rest) == After(Next(s, a), rest)
  {
    assert ([a] + rest)[1..] == rest;
  }

  /** One bot's only sample is accepted, and the context is cancelled before it is received. */
  function LosingRun(x: Sample, q: Quantiles): seq<Action> {
    [Spawn] + ([Connect(0, true)] + ([Begin(0)] + ([GetReply(0, x, false)] + ([Offer(0)] + ([CancelContext]
    + ([SeeContext(q)] + []))))))
  }

  /** It happens: a run on which the channel accepts a sample that is never reported. */
  lemma ContextExitCanLose(s0: System, x: Sample, q: Quantiles)
    requires Initial(s0) && s0.toSpawn > 0 && s0.capacity > 0
    ensures Feasible(s0, LosingRun(x, q))
    ensures var n := After(s0, LosingRun(x, q));
            n.ingester == Done(OnContext) && |n.traffic.accepted| == 1 && SumOf(n.meter.flushed, Sent) == 0
  {
    var s4 := BotReplied(s0, x);
    var s5 := Next(s4, Offer(0));
    var s6 := Next(s5, CancelContext);
    hide Feasible, After;
    NothingLeft(Next(s6, SeeContext(q)));
    Onward(s6, SeeContext(q), []);
    Onward(s5, CancelContext, [SeeContext(q)] + []);
    Onward(s4, Offer(0), [CancelContext] + ([SeeContext(q)] + []));
    BotReplies(s0, x, [Offer(0)] + ([CancelContext] + ([SeeContext(q)] + [])));
  }

  lemma NothingLeft(s: System)
    ensures Feasible(s, []) && After(s, []) == s
  {
  }

  /** After a first bot's first reply. */
  function BotReplied(s0: System, x: Sample): System
    requires Initial(s0) && s0.toSpawn > 0
  {
    var s1 := Next(s0, Spawn);
    var s2 := Next(s1, Connect(0, true));
    var s3 := Next(s2, Begin(0));
    Next(s3, GetReply(0, x, false))
  }

  lemma BotReplies(s0: System, x: Sample, rest: seq<Action>)
    requires Initial(s0) && s0.toSpawn > 0 && Feasible(BotReplied(s0, x), rest)
    ensures var run := [Spawn] + ([Connect(0, true)] + ([Begin(0)] + ([GetReply(0, x, false)] + rest)));
            Feasible(s0, run) && After(s0, run) == After(BotReplied(s0, x), rest)
  {
    hide Feasible, After;
    var s1 := Next(s0, Spawn);
    var s2 := Next(s1, Connect(0, true));
    var s3 := Next(s2, Begin(0));
    Onward(s3, GetReply(0, x, false), rest);
    Onward(s2, Begin(0), [GetReply(0, x, false)] + rest);
    Onward(s1, Connect(0, true), [Begin(0)] + ([GetReply(0, x, false)] + rest));
    Onward(s0, Spawn, [Connect(0, true)] + ([Begin(0)] + ([GetReply(0, x, false)] + rest)));
  }

  // ---------- The way out is always open ----------

  lemma {:induction false} RunsJoined(s: System, a: seq<Action>, b: seq<Action>)
    requires Feasible(s, a) && Feasible(After(s, a), b)
    ensures Feasible(s, a + b) && After(s, a + b) == After(After(s, a), b)
    decreases |a|
  {
    hide Next, Enabled;
    if a == [] {
      assert a + b == b;
    } else {
      RunsJoined(Next(s, a[0]), a[1..], b);
      assert (a + b)[1..] == a[1..] + b;
    }
  }

  /** Once the ramp has seen the cancellation, no bot is spawned any more. */
  lemma {:induction false} NoneSpawned(s: System, run: seq<Action>)
    requires s.toSpawn == 0 && Feasible(s, run)
    ensures After(s, run).toSpawn == 0 && |After(s, run).bots| == |s.bots|
    decreases |run|
  {
    if run != [] {
      NoneSpawned(Next(s, run[0]), run[1..]);
    }
  }

  lemma RampEnds(s: System, run: seq<Action>)
    requires Enabled(s, RampCancelled) && Feasible(Next(s, RampCancelled), run)
    ensures |After(Next(s, RampCancelled), run).bots| == |s.bots|
  {
    NoneSpawned(Next(s, RampCancelled), run);
  }

  /** The fleet is being stopped, and the channel is still open. */
  predicate Stopping(s: System) {
    !s.crashed && !s.closed && s.fleetCancelled && s.toSpawn == 0
  }

  /** How far a bot is from having gone. */
  function StepsLeft(b: Bot): nat {
    match b
    case Waiting => 3 case Holding(_) => 2 case Idle => 1 case Connecting => 1 case Finished => 0
  }

  function Leave(i: nat, b: Bot): Action {
    match b
    case Connecting => Connect(i, false)
    case Waiting => GetReply(i, Sample(true, true), false)
    case Holding(_) => Offer(i)
    case _ => Quit(i)
  }

  lemma LeaveStep(s: System, i: nat)
    requires Stopping(s) && i < |s.bots| && s.bots[i] != Finished
    ensures Enabled(s, Leave(i, s.bots[i]))
    ensures var n := Next(s, Leave(i, s.bots[i]));
            && Stopping(n) && |n.bots| == |s.bots| && StepsLeft(n.bots[i]) < StepsLeft(s.bots[i])
            && n.ingester == s.ingester && (forall j :: 0 <= j < |s.bots| && j != i ==> n.bots[j] == s.bots[j])
  {
  }

  lemma {:induction false} BotCanLeave(s: System, i: nat) returns (run: seq<Action>)
    requires Stopping(s) && i < |s.bots|
    ensures Feasible(s, run)
    ensures var n := After(s, run);
            && Stopping(n) && |n.bots| == |s.bots| && n.bots[i] == Finished && n.ingester == s.ingester
            && (forall j :: 0 <= j < |s.bots| && j != i ==> n.bots[j] == s.bots[j])
    decreases StepsLeft(s.bots[i])
  {
    hide Feasible, After, Next, Enabled, Stopping;
    if s.bots[i] == Finished {
      run := [];
      NothingLeft(s);
    } else {
      var a := Leave(i, s.bots[i]);
      LeaveStep(s, i);
      var rest := BotCanLeave(Next(s, a), i);
      Onward(s, a, rest);
      run := [a] + rest;
    }
  }

  lemma {:induction false} AllCanLeave(s: System, gone: nat) returns (run: seq<Action>)
    requires Stopping(s) && gone <= |s.bots| && forall i :: 0 <= i < gone ==> s.bots[i] == Finished
    ensures Feasible(s, run) && Stopping(After(s, run)) && Quiescent(After(s, run))
    ensures After(s, run).ingester == s.ingester
    decreases |s.bots| - gone
  {
    hide Feasible, After;
    if gone == |s.bots| {
      run := [];
      NothingLeft(s);
    } else {
      var first := BotCanLeave(s, gone);
      var rest := AllCanLeave(After(s, first), gone + 1);
      RunsJoined(s, first, rest);
      run := first + rest;
    }
  }

  /** The ingester alone takes in what the channel holds. */
  lemma {:induction false} CanEmpty(s: System) returns (run: seq<Action>)
    requires !s.crashed && (s.ingester == Listening || s.ingester == Draining)
    ensures Feasible(s, run)
    ensures var n := After(s, run);
            && n.traffic.chan == [] && !n.crashed && n.ingester == s.ingester && n.bots == s.bots
            && n.toSpawn == s.toSpawn && n.closed == s.closed
    decreases |s.traffic.chan|
  {
    hide Feasible, After, Ingested;
    if s.traffic.chan == [] {
      run := [];
      NothingLeft(s);
    } else {
      var a := if s.ingester == Listening then Receive else Drain;
      var rest := CanEmpty(Next(s, a));
      Onward(s, a, rest);
      run := [a] + rest;
    }
  }

  /** A listening ingester can report the open window at any time. */
  lemma CanReport(s: System, q: Quantiles)
    requires !s.crashed && s.ingester == Listening && WindowHeld(s)
    ensures Enabled(s, Tick(q)) && Next(s, Tick(q)).ingester == Listening && Window(Next(s, Tick(q))) == []
  {
  }

  /** With the channel closed, a listening ingester by itself takes in what is left and ends. */
  lemma CanEndOnClose(s: System, q: Quantiles) returns (run: seq<Action>)
    requires !s.crashed && s.ingester == Listening && s.closed
    ensures Feasible(s, run) && After(s, run).ingester == Done(OnClose) && After(s, run).traffic.chan == []
  {
    hide Feasible, After, Flushed;
    var empty := CanEmpty(s);
    var m := After(s, empty);
    NothingLeft(Next(m, SeeClosed(q)));
    Onward(m, SeeClosed(q), []);
    RunsJoined(s, empty, [SeeClosed(q)] + []);
    run := empty + ([SeeClosed(q)] + []);
  }

  lemma CanEndOnStop(s: System, q: Quantiles) returns (run: seq<Action>)
    requires !s.crashed && s.ingester == Listening && s.stopRequested
    ensures Feasible(s, run)
    ensures var n := After(s, run);
            && n.ingester == Done(OnStop) && n.traffic.chan == [] && !n.crashed && n.bots == s.bots
            && n.toSpawn == s.toSpawn && n.closed == s.closed
  {
    hide Feasible, After, Flushed;
    var d := Next(s, SeeStop);
    var empty := CanEmpty(d);
    var m := After(d, empty);
    NothingLeft(Next(m, DrainEnd(q)));
    Onward(m, DrainEnd(q), []);
    RunsJoined(d, empty, [DrainEnd(q)] + []);
    Onward(s, SeeStop, empty + ([DrainEnd(q)] + []));
    run := [SeeStop] + (empty + ([DrainEnd(q)] + []));
  }

  lemma CanStopFleet(s: System) returns (run: seq<Action>)
    requires !s.crashed && !s.closed
    ensures Feasible(s, run)
    ensures var n := After(s, run); Stopping(n) && Quiescent(n) && n.ingester == s.ingester
  {
    hide Feasible, After;
    var s1 := Next(s, CancelFleet);
    if s1.toSpawn > 0 {
      var s2 := Next(s1, RampCancelled);
      var rest := AllCanLeave(s2, 0);
      Onward(s1, RampCancelled, rest);
      Onward(s, CancelFleet, [RampCancelled] + rest);
      run := [CancelFleet] + ([RampCancelled] + rest);
    } else {
      var rest := AllCanLeave(s1, 0);
      Onward(s, CancelFleet, rest);
      run := [CancelFleet] + rest;
    }
  }

  /** From every moment of every schedule at which nothing has crashed or been closed and the
      ingester listens, the run can still be stopped in the intended order: fleet, channel,
      ingester; with no crash, every bot gone and, as that order ensures, all reported. */
  lemma CanStopInOrder(s0: System, past: seq<Action>, q: Quantiles) returns (run: seq<Action>)
    requires Initial(s0) && Feasible(s0, past)
    requires var s := After(s0, past); !s.crashed && !s.closed && s.ingester == Listening
    ensures Feasible(After(s0, past), run)
    ensures var n := After(After(s0, past), run);
            && !n.crashed && n.closed && Quiescent(n) && n.ingester == Done(OnStop)
            && SumOf(n.meter.flushed, Sent) == |n.traffic.accepted|
  {
    hide Feasible, After, SumOf, Invariant;
    var s := After(s0, past);
    var stop := CanStopFleet(s);
    var m := After(s, stop);
    var c := Next(m, CloseSamples);
    var d := Next(c, RequestStop);
    var end := CanEndOnStop(d, q);
    Onward(c, RequestStop, end);
    Onward(m, CloseSamples, [RequestStop] + end);
    RunsJoined(s, stop, [CloseSamples] + ([RequestStop] + end));
    run := stop + ([CloseSamples] + ([RequestStop] + end));
    RunsJoined(s0, past, run);
    NormalStopReportsAll(s0, past + run);
  }

  // ---------- Closing the channel ----------

  /** Runs on which the channel is closed only after the last bot has gone, as the half-second
      pause in Fleet.Stop intends. */
  predicate ClosesQuiescent(s: System, run: seq<Action>)
    requires Feasible(s, run)
    decreases |run|
  {
    run != [] ==>
      (run[0].CloseSamples? ==> Quiescent(s)) && ClosesQuiescent(Next(s, run[0]), run[1..])
  }

  predicate SafelyClosed(s: System) {
    !s.crashed && (s.closed ==> Quiescent(s))
  }

  lemma {:induction false} QuiescentCloseNeverCrashes(s: System, run: seq<Action>)
    requires SafelyClosed(s) && Feasible(s, run) && ClosesQuiescent(s, run)
    ensures SafelyClosed(After(s, run))
    decreases |run|
  {
    if run != [] {
      QuiescentCloseNeverCrashes(Next(s, run[0]), run[1..]);
    }
  }

  /** What the bot at index i, or the next to be spawned, does to send on the channel. */
  function Finale(s: System, i: nat): seq<Action>
    requires i < |s.bots|
  {
    var x := Sample(true, true);
    match s.bots[i]
    case Connecting => [Connect(i, true), Begin(i), GetReply(i, x, false), Offer(i)]
    case Idle => [Begin(i), GetReply(i, x, false), Offer(i)]
    case Waiting => [GetReply(i, x, false), Offer(i)]
    case Holding(_) => [Offer(i)]
    case Finished => []
  }

  lemma FinaleCrashes(s: System, i: nat)
    requires i < |s.bots| && s.bots[i] != Finished && s.closed && !s.crashed
    ensures Feasible(s, Finale(s, i)) && After(s, Finale(s, i)).crashed
    decreases match s.bots[i]
              case Connecting => 4 case Idle => 3 case Waiting => 2 case Holding(_) => 1 case Finished => 0
  {
    var run := Finale(s, i);
    if !s.bots[i].Holding? {
      var n := Next(s, run[0]);
      FinaleCrashes(n, i);
      assert run[1..] == Finale(n, i);
    } else {
      assert run[1..] == [];
    }
  }

  /** With the channel closed, some schedule crashes the process exactly when a bot is left,
      or still to be spawned, at that moment: the pause is all that stands between. */
  lemma CrashPossibleIff(s: System)
    requires s.closed && !s.crashed
    ensures (exists run :: Feasible(s, run) && After(s, run).crashed) <==> !Quiescent(s)
  {
    if Quiescent(s) {
      forall run | Feasible(s, run)
        ensures !After(s, run).crashed
      {
        ClosedOnceOnly(s, run);
        QuiescentCloseNeverCrashes(s, run);
      }
    } else {
      var run := CrashingRun(s);
    }
  }

  lemma CrashingRun(s: System) returns (run: seq<Action>)
    requires s.closed && !s.crashed && !Quiescent(s)
    ensures Feasible(s, run) && After(s, run).crashed
  {
    if i :| 0 <= i < |s.bots| && s.bots[i] != Finished {
      FinaleCrashes(s, i);
      run := Finale(s, i);
    } else {
      var n := Next(s, Spawn);
      FinaleCrashes(n, |s.bots|);
      run := [Spawn] + Finale(n, |s.bots|);
      assert run[1..] == Finale(n, |s.bots|);
    }
  }

  /** And it happens: with a bot still to be spawned when the fleet is cancelled and the channel
      closed, some run from the start crashes. */
  lemma CrashReached(s0: System) returns (run: seq<Action>)
    requires Initial(s0) && s0.toSpawn > 0
    ensures Feasible(s0, run) && After(s0, run).crashed
  {
    var s1 := Next(s0, CancelFleet);
    var s2 := Next(s1, CloseSamples);
    var rest := CrashingRun(s2);
    hide Feasible, After;
    Onward(s1, CloseSamples, rest);
    Onward(s0, CancelFleet, [CloseSamples] + rest);
    run := [CancelFleet] + ([CloseSamples] + rest);
  }

  lemma {:induction false} ClosedOnceOnly(s: System, run: seq<Action>)
    requires s.closed && Feasible(s, run)
    ensures ClosesQuiescent(s, run)
    decreases |run|
  {
    if run != [] {
      ClosedOnceOnly(Next(s, run[0]), run[1..]);
    }
  }
}
