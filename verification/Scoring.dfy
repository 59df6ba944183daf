/** From a run's persisted snapshots to its composite score. The base-ten logarithm is a
    parameter, constrained by what the scoring uses of it. */
module Scoring {
  import opened Telemetry
  import Runs = TelemetrySystem

  // ---------- Aggregation ----------

  datatype Aggregate = Aggregate(peakTps: real, avgTps: real, avgP50Ms: real, avgP90Ms: real, avgP99Ms: real,
                                 uptimePct: real, correctness: real)

  function MaxReal(a: real, b: real): real { if a >= b then a else b }

  function PeakTps(snaps: seq<Snapshot>, interval: real): real
    requires interval > 0.0
  {
    if snaps == [] then 0.0
    else if |snaps| == 1 then Tps(snaps[0], interval)
    else MaxReal(Tps(snaps[0], interval), PeakTps(snaps[1..], interval))
  }

  datatype Column = TpsColumn | P50Column | P90Column | P99Column

  function Cell(s: Snapshot, c: Column, interval: real): real
    requires interval > 0.0
  {
    match c
    case TpsColumn => Tps(s, interval)
    case P50Column => s.p50Ms
    case P90Column => s.p90Ms
    case P99Column => s.p99Ms
  }

  function ColumnSum(snaps: seq<Snapshot>, c: Column, interval: real): real
    requires interval > 0.0
  {
    if snaps == [] then 0.0 else Cell(snaps[0], c, interval) + ColumnSum(snaps[1..], c, interval)
  }

  function Times(x: real, y: real): real {
    x * y
  }

  function Ratio(a: real, b: real): real
    requires b != 0.0
  {
    a / b
  }

  function Average(snaps: seq<Snapshot>, c: Column, interval: real): real
    requires interval > 0.0
  {
    if snaps == [] then 0.0 else Ratio(ColumnSum(snaps, c, interval), |snaps| as real)
  }

  function AckedWindows(snaps: seq<Snapshot>): nat {
    if snaps == [] then 0 else AckedWindows(snaps[1..]) + if snaps[0].acked > 0 then 1 else 0
  }

  function PrioritySum(snaps: seq<Snapshot>): int {
    if snaps == [] then 0 else snaps[0].priorityErrors + PrioritySum(snaps[1..])
  }

  function Uptime(snaps: seq<Snapshot>): real {
    if snaps == [] then 0.0 else Ratio(AckedWindows(snaps) as real, |snaps| as real) * 100.0
  }

  function Correctness(snaps: seq<Snapshot>): real {
    var sent := SumOf(snaps, Sent);
    if sent > 0 then 1.0 - Ratio((SumOf(snaps, FillErrors) + PrioritySum(snaps)) as real, sent as real) else 0.0
  }

  function AggregateOf(snaps: seq<Snapshot>, interval: real): Aggregate
    requires interval > 0.0
  {
    Aggregate(PeakTps(snaps, interval), Average(snaps, TpsColumn, interval), Average(snaps, P50Column, interval),
              Average(snaps, P90Column, interval), Average(snaps, P99Column, interval), Uptime(snaps),
              Correctness(snaps))
  }

  lemma Scaled(w: real, x: real, y: real)
    requires w > 0.0 && x < y
    ensures w * x < w * y
  {
    assert w * (y - x) > 0.0;
  }

  lemma QuotientWithin(a: real, n: real, low: real, high: real)
    requires n > 0.0 && low * n <= a <= high * n
    ensures low <= Ratio(a, n) <= high
  {
    var r := Ratio(a, n);
    assert r * n == a;
    if r < low {
      Scaled(n, r, low);
    } else if r > high {
      Scaled(n, high, r);
    }
  }

  lemma RatioComplement(a: real, b: real, c: real)
    requires a + b == c && c > 0.0
    ensures 1.0 - Ratio(b, c) == Ratio(a, c)
  {
    assert Ratio(a, c) + Ratio(b, c) == (a + b) / c;
  }

  lemma {:induction false} GenuineSums(snaps: seq<Snapshot>)
    requires AllGenuine(snaps)
    ensures SumOf(snaps, Sent) == SumOf(snaps, Acked) + SumOf(snaps, FillErrors)
    ensures 0 <= SumOf(snaps, Acked) && 0 <= SumOf(snaps, FillErrors)
    ensures snaps != [] ==> SumOf(snaps, Sent) > 0
  {
    if snaps != [] {
      assert Genuine(snaps[|snaps| - 1]);
      GenuineSums(snaps[..|snaps| - 1]);
    }
  }

  lemma {:induction false} NoPriorityErrors(snaps: seq<Snapshot>)
    requires AllGenuine(snaps)
    ensures PrioritySum(snaps) == 0 && AckedWindows(snaps) <= |snaps|
  {
    if snaps != [] {
      assert Genuine(snaps[0]);
      NoPriorityErrors(snaps[1..]);
    }
  }

  /** The peak is the throughput of some window and no window exceeds it. */
  lemma {:induction false} PeakIsMaximum(snaps: seq<Snapshot>, interval: real) returns (best: nat)
    requires interval > 0.0 && snaps != []
    ensures best < |snaps| && PeakTps(snaps, interval) == Tps(snaps[best], interval)
    ensures forall i :: 0 <= i < |snaps| ==> Tps(snaps[i], interval) <= PeakTps(snaps, interval)
  {
    best := 0;
    if |snaps| > 1 {
      var k := PeakIsMaximum(snaps[1..], interval);
      if Tps(snaps[0], interval) < PeakTps(snaps[1..], interval) {
        best := k + 1;
      }
      forall i | 0 <= i < |snaps| ensures Tps(snaps[i], interval) <= PeakTps(snaps, interval) {
        assert i > 0 ==> snaps[i] == snaps[1..][i - 1];
      }
    }
  }

  function Multiple(x: real, n: nat): real {
    if n == 0 then 0.0 else x + Multiple(x, n - 1)
  }

  lemma OneMore(x: real, m: real)
    ensures x * (m + 1.0) == x + x * m
  {
  }

  lemma {:induction false} MultipleIsProduct(x: real, n: nat)
    ensures Multiple(x, n) == x * n as real
  {
    if n > 0 {
      MultipleIsProduct(x, n - 1);
      OneMore(x, (n - 1) as real);
      assert n as real == (n - 1) as real + 1.0;
    }
  }

  lemma {:induction false} SumsWithin(snaps: seq<Snapshot>, c: Column, interval: real, low: real, high: real)
    requires interval > 0.0 && forall i :: 0 <= i < |snaps| ==> low <= Cell(snaps[i], c, interval) <= high
    ensures Multiple(low, |snaps|) <= ColumnSum(snaps, c, interval) <= Multiple(high, |snaps|)
  {
    if snaps != [] {
      forall i | 0 <= i < |snaps| - 1 ensures low <= Cell(snaps[1..][i], c, interval) <= high {
        assert snaps[1..][i] == snaps[i + 1];
      }
      SumsWithin(snaps[1..], c, interval, low, high);
    }
  }

  /** Every average lies within whatever range the windows keep to. */
  lemma AverageWithin(snaps: seq<Snapshot>, c: Column, interval: real, low: real, high: real)
    requires interval > 0.0 && snaps != []
    requires forall i :: 0 <= i < |snaps| ==> low <= Cell(snaps[i], c, interval) <= high
    ensures low <= Average(snaps, c, interval) <= high
  {
    SumsWithin(snaps, c, interval, low, high);
    MultipleIsProduct(low, |snaps|);
    MultipleIsProduct(high, |snaps|);
    QuotientWithin(ColumnSum(snaps, c, interval), |snaps| as real, low, high);
  }

  /** Of whichever snapshots of the ingester got persisted, the correctness is the share of
      orders acknowledged, and correctness and uptime keep to their scales. */
  lemma AggregateOnScale(snaps: seq<Snapshot>, interval: real)
    requires AllGenuine(snaps) && interval > 0.0
    ensures var a := AggregateOf(snaps, interval);
            && 0.0 <= a.correctness <= 1.0 && 0.0 <= a.uptimePct <= 100.0
            && (snaps != [] ==>
                  SumOf(snaps, Sent) > 0
                  && a.correctness == Ratio(SumOf(snaps, Acked) as real, SumOf(snaps, Sent) as real))
  {
    GenuineSums(snaps);
    NoPriorityErrors(snaps);
    if snaps != [] {
      var acked, failed, sent := SumOf(snaps, Acked), SumOf(snaps, FillErrors), SumOf(snaps, Sent);
      QuotientWithin(acked as real, sent as real, 0.0, 1.0);
      RatioComplement(acked as real, failed as real, sent as real);
      QuotientWithin(AckedWindows(snaps) as real, |snaps| as real, 0.0, 1.0);
    }
  }

  // ---------- Aggregates in terms of the windows ----------

  /** Without a window every metric is zero. */
  lemma AggregateOfNone(interval: real)
    requires interval > 0.0
    ensures AggregateOf([], interval) == Aggregate(0.0, 0.0, 0.0, 0.0, 0.0, 0.0, 0.0)
  {
  }

  /** One window alone shows through: its quantiles, its acknowledgements a second, full uptime
      or none, and the share of its orders without an error. */
  lemma AggregateOfOne(s: Snapshot, interval: real)
    requires interval > 0.0
    ensures var a := AggregateOf([s], interval);
            && a.avgP50Ms == s.p50Ms && a.avgP90Ms == s.p90Ms && a.avgP99Ms == s.p99Ms
            && a.avgTps * interval == s.acked as real && a.peakTps * interval == s.acked as real
            && a.uptimePct == (if s.acked > 0 then 100.0 else 0.0)
            && (if s.sent > 0 then a.correctness * s.sent as real == (s.sent - s.fillErrors - s.priorityErrors) as real
                else a.correctness == 0.0)
  {
    hide Ratio;
    OneCell(s, TpsColumn, interval);
    OneCell(s, P50Column, interval);
    OneCell(s, P90Column, interval);
    OneCell(s, P99Column, interval);
    OneUptime(s);
    OneCorrectness(s);
    TpsIsRate(s, interval);
  }

  lemma TpsIsRate(s: Snapshot, interval: real)
    requires interval > 0.0
    ensures Tps(s, interval) * interval == s.acked as real
  {
  }

  lemma Whole(x: real)
    ensures Ratio(x, 1.0) == x
  {
  }

  lemma OneCell(s: Snapshot, c: Column, interval: real)
    requires interval > 0.0
    ensures Average([s], c, interval) == Cell(s, c, interval)
  {
    hide Ratio, Cell;
    assert [s][1..] == [];
    assert ColumnSum([s], c, interval) == Cell(s, c, interval) && |[s]| as real == 1.0;
    Whole(Cell(s, c, interval));
  }

  lemma OneUptime(s: Snapshot)
    ensures Uptime([s]) == if s.acked > 0 then 100.0 else 0.0
  {
    hide Ratio;
    assert [s][1..] == [];
    var n: nat := if s.acked > 0 then 1 else 0;
    assert AckedWindows([s]) == n && |[s]| as real == 1.0;
    Whole(n as real);
  }

  lemma OneCorrectness(s: Snapshot)
    ensures if s.sent > 0 then Correctness([s]) * s.sent as real == (s.sent - s.fillErrors - s.priorityErrors) as real
            else Correctness([s]) == 0.0
  {
    hide Ratio;
    assert [s][..0] == [] && [s][1..] == [];
    assert SumOf([s], Sent) == s.sent && SumOf([s], FillErrors) == s.fillErrors && PrioritySum([s]) == s.priorityErrors;
    if s.sent > 0 {
      Shared(s.fillErrors + s.priorityErrors, s.sent);
    }
  }

  lemma Shared(a: int, n: int)
    requires n > 0
    ensures (1.0 - Ratio(a as real, n as real)) * n as real == (n - a) as real
  {
    var r := Ratio(a as real, n as real);
    assert r * n as real == a as real;
  }

  lemma {:induction false} ColumnJoins(a: seq<Snapshot>, b: seq<Snapshot>, c: Column, interval: real)
    requires interval > 0.0
    ensures ColumnSum(a + b, c, interval) == ColumnSum(a, c, interval) + ColumnSum(b, c, interval)
  {
    if a == [] {
      assert a + b == b;
    } else {
      ColumnJoins(a[1..], b, c, interval);
      assert (a + b)[1..] == a[1..] + b;
    }
  }

  lemma {:induction false} CountsJoin(a: seq<Snapshot>, b: seq<Snapshot>)
    ensures AckedWindows(a + b) == AckedWindows(a) + AckedWindows(b)
    ensures PrioritySum(a + b) == PrioritySum(a) + PrioritySum(b)
  {
    if a == [] {
      assert a + b == b;
    } else {
      CountsJoin(a[1..], b);
      assert (a + b)[1..] == a[1..] + b;
    }
  }

  lemma {:induction false} SumJoins(a: seq<Snapshot>, b: seq<Snapshot>, k: Field)
    ensures SumOf(a + b, k) == SumOf(a, k) + SumOf(b, k)
  {
    if b == [] {
      assert a + b == a;
    } else {
      SumJoins(a, b[..|b| - 1], k);
      assert (a + b)[..|a + b| - 1] == a + b[..|b| - 1];
    }
  }

  /** A mean, taken back to the sum. */
  lemma Unshared(x: real, n: real)
    requires n > 0.0
    ensures Times(Ratio(x, n), n) == x
  {
  }

  lemma AverageJoins(a: seq<Snapshot>, b: seq<Snapshot>, c: Column, interval: real)
    requires interval > 0.0 && a != [] && b != []
    ensures Times(Average(a + b, c, interval), (|a| + |b|) as real)
            == Times(Average(a, c, interval), |a| as real) + Times(Average(b, c, interval), |b| as real)
  {
    hide Ratio, Times;
    ColumnJoins(a, b, c, interval);
    Unshared(ColumnSum(a + b, c, interval), |a + b| as real);
    Unshared(ColumnSum(a, c, interval), |a| as real);
    Unshared(ColumnSum(b, c, interval), |b| as real);
  }

  lemma Percent(x: real, n: real)
    requires n > 0.0
    ensures Times(Ratio(x, n) * 100.0, n) == x * 100.0
  {
    var r := Ratio(x, n);
    assert r * n == x;
    assert r * 100.0 * n == r * n * 100.0;
  }

  lemma UptimeCounts(a: seq<Snapshot>)
    requires a != []
    ensures Times(Uptime(a), |a| as real) == AckedWindows(a) as real * 100.0
  {
    hide Ratio, Times;
    Percent(AckedWindows(a) as real, |a| as real);
  }

  lemma CorrectnessCounts(a: seq<Snapshot>)
    requires SumOf(a, Sent) > 0
    ensures Times(Correctness(a), SumOf(a, Sent) as real)
            == (SumOf(a, Sent) - SumOf(a, FillErrors) - PrioritySum(a)) as real
  {
    hide Ratio;
    Shared(SumOf(a, FillErrors) + PrioritySum(a), SumOf(a, Sent));
  }

  lemma UptimeJoins(a: seq<Snapshot>, b: seq<Snapshot>)
    requires a != [] && b != []
    ensures Times(Uptime(a + b), (|a| + |b|) as real) == Times(Uptime(a), |a| as real) + Times(Uptime(b), |b| as real)
  {
    hide Uptime, Times, AckedWindows;
    CountsJoin(a, b);
    UptimeCounts(a);
    UptimeCounts(b);
    UptimeCounts(a + b);
  }

  lemma CorrectnessJoins(a: seq<Snapshot>, b: seq<Snapshot>)
    requires SumOf(a, Sent) > 0 && SumOf(b, Sent) > 0
    ensures Times(Correctness(a + b), (SumOf(a, Sent) + SumOf(b, Sent)) as real)
            == Times(Correctness(a), SumOf(a, Sent) as real) + Times(Correctness(b), SumOf(b, Sent) as real)
  {
    hide Correctness, Times, SumOf, PrioritySum;
    CountsJoin(a, b);
    SumJoins(a, b, Sent);
    SumJoins(a, b, FillErrors);
    CorrectnessCounts(a);
    CorrectnessCounts(b);
    CorrectnessCounts(a + b);
  }

  lemma {:induction false} PeakJoins(a: seq<Snapshot>, b: seq<Snapshot>, interval: real)
    requires interval > 0.0 && a != [] && b != []
    ensures PeakTps(a + b, interval) == MaxReal(PeakTps(a, interval), PeakTps(b, interval))
  {
    assert (a + b)[1..] == a[1..] + b;
    if |a| > 1 {
      PeakJoins(a[1..], b, interval);
    } else {
      assert a[1..] + b == b;
    }
  }

  /** Two lots of windows together: the peak is the greater one, every average and the uptime
      the mean weighted by the number of windows, the correctness that weighted by orders sent. */
  lemma AggregateJoins(a: seq<Snapshot>, b: seq<Snapshot>, interval: real)
    requires interval > 0.0 && a != [] && b != []
    ensures var x, y, j := AggregateOf(a, interval), AggregateOf(b, interval), AggregateOf(a + b, interval);
            var m, n, all := |a| as real, |b| as real, (|a| + |b|) as real;
            && j.peakTps == MaxReal(x.peakTps, y.peakTps)
            && Times(j.avgTps, all) == Times(x.avgTps, m) + Times(y.avgTps, n)
            && Times(j.avgP50Ms, all) == Times(x.avgP50Ms, m) + Times(y.avgP50Ms, n)
            && Times(j.avgP90Ms, all) == Times(x.avgP90Ms, m) + Times(y.avgP90Ms, n)
            && Times(j.avgP99Ms, all) == Times(x.avgP99Ms, m) + Times(y.avgP99Ms, n)
            && Times(j.uptimePct, all) == Times(x.uptimePct, m) + Times(y.uptimePct, n)
            && (SumOf(a, Sent) > 0 && SumOf(b, Sent) > 0 ==>
                  var s, t := SumOf(a, Sent), SumOf(b, Sent);
                  Times(j.correctness, (s + t) as real)
                  == Times(x.correctness, s as real) + Times(y.correctness, t as real))
  {
    hide Times, Average, Uptime, Correctness, PeakTps, SumOf, MaxReal;
    PeakJoins(a, b, interval);
    AverageJoins(a, b, TpsColumn, interval);
    AverageJoins(a, b, P50Column, interval);
    AverageJoins(a, b, P90Column, interval);
    AverageJoins(a, b, P99Column, interval);
    UptimeJoins(a, b);
    if SumOf(a, Sent) > 0 && SumOf(b, Sent) > 0 {
      CorrectnessJoins(a, b);
    }
  }

  lemma {:induction false} AllOrNone(snaps: seq<Snapshot>)
    ensures AckedWindows(snaps) == |snaps| <==> forall i :: 0 <= i < |snaps| ==> snaps[i].acked > 0
    ensures AckedWindows(snaps) == 0 <==> forall i :: 0 <= i < |snaps| ==> snaps[i].acked <= 0
    ensures AckedWindows(snaps) <= |snaps|
  {
    if snaps != [] {
      AllOrNone(snaps[1..]);
      assert forall i :: 0 < i < |snaps| ==> snaps[i] == snaps[1..][i - 1];
    }
  }

  /** Uptime is full exactly when every window saw an acknowledgement, and nil when none did. */
  lemma UptimeExtremes(snaps: seq<Snapshot>)
    requires snaps != []
    ensures Uptime(snaps) == 100.0 <==> forall i :: 0 <= i < |snaps| ==> snaps[i].acked > 0
    ensures Uptime(snaps) == 0.0 <==> forall i :: 0 <= i < |snaps| ==> snaps[i].acked <= 0
  {
    AllOrNone(snaps);
    var a, n := AckedWindows(snaps) as real, |snaps| as real;
    assert Ratio(a, n) * n == a;
    if a == n {
      QuotientWithin(a, n, 1.0, 1.0);
    } else if a == 0.0 {
      QuotientWithin(a, n, 0.0, 0.0);
    }
  }

  /** The correctness of a run that ended in the normal order, all its snapshots persisted, is
      the share of successes among the samples the channel accepted; if none was dropped, it is
      the fleet's own acknowledged over sent. */
  lemma NormalRunCorrectness(s0: Runs.System, run: seq<Runs.Action>, interval: real)
    requires interval > 0.0 && Runs.Initial(s0) && Runs.Feasible(s0, run)
    requires var s := Runs.After(s0, run);
             (s.ingester == Runs.Done(Runs.OnStop) || s.ingester == Runs.Done(Runs.OnClose)) && s.traffic.accepted != []
    ensures var s := Runs.After(s0, run);
            var t, correctness := s.traffic, AggregateOf(s.meter.flushed, interval).correctness;
            && correctness == Ratio(Successes(t.accepted) as real, |t.accepted| as real)
            && (Runs.Quiescent(s) && t.dropped == 0 ==>
                  t.sent > 0 && correctness == Ratio(t.acked as real, t.sent as real))
  {
    Runs.NormalStopReportsAll(s0, run);
    Runs.AccountsExact(s0, run);
    var s := Runs.After(s0, run);
    assert s.meter.flushed != [];
    AggregateOnScale(s.meter.flushed, interval);
    if Runs.Quiescent(s) {
      Runs.FinalAccounts(s0, run);
    }
  }

  // ---------- Normalisation ----------

  /** The base-ten logarithm: strictly increasing, turning products into sums, 1 at 10. */
  ghost predicate IsLog10(log: real -> real) {
    && (forall x, y :: 0.0 < x < y ==> log(x) < log(y))
    && (forall x, y {:trigger Times(x, y)} :: 0.0 < x && 0.0 < y ==> log(Times(x, y)) == log(x) + log(y))
    && log(10.0) == 1.0
  }

  lemma LogValues(log: real -> real)
    requires IsLog10(log)
    ensures log(1.0) == 0.0 && log(100.0) == 2.0 && log(100000.0) == 5.0
  {
    assert Times(1.0, 10.0) == 10.0 && Times(10.0, 10.0) == 100.0;
    assert Times(100.0, 100.0) == 10000.0 && Times(10000.0, 10.0) == 100000.0;
  }

  function LogBase10(log: real -> real, v: real): real {
    if v <= 0.0 then 0.0 else log(v)
  }

  function Clamp(v: real, min: real, max: real): real {
    if v < min then min else if v > max then max else v
  }

  datatype Scores = Scores(latency: real, throughput: real, correctness: real, stability: real)

  datatype Weights = Weights(latency: real, throughput: real, correctness: real, stability: real)

  function LatencyScore(log: real -> real, p99: real): real {
    if p99 > 1.0 then Clamp(100.0 * (1.0 - LogBase10(log, p99) / 2.0), 0.0, 100.0) else 100.0
  }

  function ThroughputScore(log: real -> real, tps: real): real {
    if tps > 100.0 then Clamp(100.0 * (LogBase10(log, tps) - 2.0) / 3.0, 0.0, 100.0) else 0.0
  }

  function Normalized(log: real -> real, a: Aggregate): Scores {
    Scores(LatencyScore(log, a.avgP99Ms), ThroughputScore(log, a.peakTps),
           Clamp(a.correctness * 100.0, 0.0, 100.0), Clamp(a.uptimePct, 0.0, 100.0))
  }

  function Weighted(w: real, x: real): real {
    w * x
  }

  function Composite(w: Weights, s: Scores): real {
    Weighted(w.latency, s.latency) + Weighted(w.throughput, s.throughput)
    + Weighted(w.correctness, s.correctness) + Weighted(w.stability, s.stability)
  }

  predicate ProperWeights(w: Weights) {
    && w.latency >= 0.0 && w.throughput >= 0.0 && w.correctness >= 0.0 && w.stability >= 0.0
    && w.latency + w.throughput + w.correctness + w.stability == 1.0
  }

  predicate OnScale(s: Scores) {
    && 0.0 <= s.latency <= 100.0 && 0.0 <= s.throughput <= 100.0
    && 0.0 <= s.correctness <= 100.0 && 0.0 <= s.stability <= 100.0
  }

  /** The scale the documentation gives: full latency score up to 1 ms and none from 100 ms,
      no throughput score up to 100 orders a second and the full one from 100000. */
  lemma ScoreEndpoints(log: real -> real, p99: real, tps: real)
    requires IsLog10(log)
    ensures LatencyScore(log, p99) == 100.0 <==> p99 <= 1.0
    ensures LatencyScore(log, p99) == 0.0 <==> p99 >= 100.0
    ensures ThroughputScore(log, tps) == 0.0 <==> tps <= 100.0
    ensures ThroughputScore(log, tps) == 100.0 <==> tps >= 100000.0
  {
    LogValues(log);
    if p99 > 1.0 {
      assert log(1.0) < log(p99);
      assert p99 < 100.0 ==> log(p99) < log(100.0);
      assert p99 > 100.0 ==> log(100.0) < log(p99);
    }
    if tps > 100.0 {
      assert log(100.0) < log(tps);
      assert tps < 100000.0 ==> log(tps) < log(100000.0);
      assert tps > 100000.0 ==> log(100000.0) < log(tps);
    }
  }

  lemma ProductAbove(x: real, k: real)
    requires x > 0.0 && k >= 1.0
    ensures x <= Times(x, k) && (Times(x, k) == x <==> k == 1.0)
  {
    if k > 1.0 {
      Scaled(x, 1.0, k);
    }
  }

  /** The latency score is logarithmic: wherever on the scale, a latency k times as long costs
      the same points, fifty for each power of ten. */
  lemma LatencyLogarithmic(log: real -> real, x: real, k: real)
    requires IsLog10(log) && 1.0 <= x && 1.0 <= k && Times(x, k) <= 100.0
    ensures LatencyScore(log, x) - LatencyScore(log, Times(x, k)) == 50.0 * log(k)
  {
    hide Times;
    LogValues(log);
    ProductAbove(x, k);
    assert log(Times(x, k)) == log(x) + log(k);
    assert Times(x, k) < 100.0 ==> log(Times(x, k)) < log(100.0);
    assert x > 1.0 ==> log(1.0) < log(x);
    assert k > 1.0 ==> log(1.0) < log(k);
  }

  /** So is the throughput score, a hundred points for three powers of ten. */
  lemma ThroughputLogarithmic(log: real -> real, x: real, k: real)
    requires IsLog10(log) && 100.0 <= x && 1.0 <= k && Times(x, k) <= 100000.0
    ensures ThroughputScore(log, Times(x, k)) - ThroughputScore(log, x) == 100.0 * log(k) / 3.0
  {
    hide Times;
    LogValues(log);
    ProductAbove(x, k);
    assert log(Times(x, k)) == log(x) + log(k);
    assert Times(x, k) < 100000.0 ==> log(Times(x, k)) < log(100000.0);
    assert x > 100.0 ==> log(100.0) < log(x);
    assert k > 1.0 ==> log(1.0) < log(k);
  }

  /** Half marks are had at the geometric middles of the scales: 10 ms, and the square root of
      100 times 100000 orders a second. */
  lemma HalfMarks(log: real -> real, tps: real)
    requires IsLog10(log) && tps > 0.0 && Times(tps, tps) == 100.0 * 100000.0
    ensures LatencyScore(log, 10.0) == 50.0 && ThroughputScore(log, tps) == 50.0
  {
    LogValues(log);
    assert Times(100.0, 100000.0) == 100.0 * 100000.0;
    assert log(Times(tps, tps)) == log(tps) + log(tps);
    SquareBelow(tps);
  }

  lemma SquareBelow(x: real)
    requires x > 0.0
    ensures x <= 100.0 ==> Times(x, x) <= 10000.0
  {
    if x < 100.0 {
      Scaled(x, x, 100.0);
    }
  }

  /** A point of a score is worth its weight. */
  lemma PointsWeighed(w: Weights, s: Scores, d: real)
    ensures Composite(w, s.(latency := s.latency + d)) == Composite(w, s) + w.latency * d
    ensures Composite(w, s.(throughput := s.throughput + d)) == Composite(w, s) + w.throughput * d
    ensures Composite(w, s.(correctness := s.correctness + d)) == Composite(w, s) + w.correctness * d
    ensures Composite(w, s.(stability := s.stability + d)) == Composite(w, s) + w.stability * d
  {
  }

  lemma WeightedMonotone(w: real, x: real, y: real)
    requires w >= 0.0 && x <= y
    ensures Weighted(w, x) <= Weighted(w, y)
  {
    assert w * (y - x) >= 0.0;
  }

  lemma CompositeMonotone(w: Weights, s: Scores, t: Scores)
    requires ProperWeights(w)
    requires s.latency <= t.latency && s.throughput <= t.throughput
    requires s.correctness <= t.correctness && s.stability <= t.stability
    ensures Composite(w, s) <= Composite(w, t)
  {
    WeightedMonotone(w.latency, s.latency, t.latency);
    WeightedMonotone(w.throughput, s.throughput, t.throughput);
    WeightedMonotone(w.correctness, s.correctness, t.correctness);
    WeightedMonotone(w.stability, s.stability, t.stability);
  }

  lemma CompositeOfConstant(w: Weights, x: real)
    requires ProperWeights(w)
    ensures Composite(w, Scores(x, x, x, x)) == x
  {
    assert Composite(w, Scores(x, x, x, x)) == (w.latency + w.throughput + w.correctness + w.stability) * x;
  }

  /** With weights that share out one, the composite lies between 0 and 100. */
  lemma {:induction false} CompositeOnScale(log: real -> real, w: Weights, a: Aggregate)
    requires ProperWeights(w)
    ensures var s := Normalized(log, a); OnScale(s) && 0.0 <= Composite(w, s) <= 100.0
  {
    var s := Normalized(log, a);
    CompositeMonotone(w, Scores(0.0, 0.0, 0.0, 0.0), s);
    CompositeMonotone(w, s, Scores(100.0, 100.0, 100.0, 100.0));
    CompositeOfConstant(w, 0.0);
    CompositeOfConstant(w, 100.0);
  }

  lemma WeightedGap(w: real, x: real)
    requires w >= 0.0 && x <= 100.0
    ensures Weighted(w, x) <= Weighted(w, 100.0)
    ensures Weighted(w, x) == Weighted(w, 100.0) <==> (w > 0.0 ==> x == 100.0)
  {
    if w > 0.0 && x < 100.0 {
      Scaled(w, x, 100.0);
    }
  }

  /** The full composite is had exactly by full marks in everything that carries weight. */
  lemma CompositeFullIff(w: Weights, s: Scores)
    requires ProperWeights(w) && OnScale(s)
    ensures Composite(w, s) == 100.0 <==>
            && (w.latency > 0.0 ==> s.latency == 100.0) && (w.throughput > 0.0 ==> s.throughput == 100.0)
            && (w.correctness > 0.0 ==> s.correctness == 100.0) && (w.stability > 0.0 ==> s.stability == 100.0)
  {
    CompositeOfConstant(w, 100.0);
    hide Weighted;
    WeightedGap(w.latency, s.latency);
    WeightedGap(w.throughput, s.throughput);
    WeightedGap(w.correctness, s.correctness);
    WeightedGap(w.stability, s.stability);
  }

  /** Of snapshots as the ingester produces them, correctness and stability are never clamped. */
  lemma ClampsIdle(log: real -> real, snaps: seq<Snapshot>, interval: real)
    requires AllGenuine(snaps) && interval > 0.0
    ensures var a := AggregateOf(snaps, interval);
            var s := Normalized(log, a);
            s.correctness == a.correctness * 100.0 && s.stability == a.uptimePct
  {
    AggregateOnScale(snaps, interval);
  }

  /** At least as good on every raw metric the score looks at. */
  predicate Dominates(a: Aggregate, b: Aggregate) {
    a.avgP99Ms <= b.avgP99Ms && a.peakTps >= b.peakTps && a.correctness >= b.correctness && a.uptimePct >= b.uptimePct
  }

  lemma LatencyMonotone(log: real -> real, x: real, y: real)
    requires IsLog10(log) && x <= y
    ensures LatencyScore(log, x) >= LatencyScore(log, y)
  {
    LogValues(log);
    if 1.0 < x < y {
      assert log(x) < log(y);
    }
  }

  lemma ThroughputMonotone(log: real -> real, x: real, y: real)
    requires IsLog10(log) && x <= y
    ensures ThroughputScore(log, x) <= ThroughputScore(log, y)
  {
    LogValues(log);
    if 100.0 < x < y {
      assert log(x) < log(y);
    }
  }

  /** A run at least as good on all four raw metrics never scores lower. */
  lemma DominanceScores(log: real -> real, w: Weights, a: Aggregate, b: Aggregate)
    requires IsLog10(log) && ProperWeights(w) && Dominates(a, b)
    ensures Composite(w, Normalized(log, a)) >= Composite(w, Normalized(log, b))
  {
    LatencyMonotone(log, a.avgP99Ms, b.avgP99Ms);
    ThroughputMonotone(log, b.peakTps, a.peakTps);
    CompositeMonotone(w, Normalized(log, b), Normalized(log, a));
  }

  lemma {:induction false} SilentSums(snaps: seq<Snapshot>, interval: real)
    requires AllGenuine(snaps) && interval > 0.0 && forall i :: 0 <= i < |snaps| ==> snaps[i].acked == 0
    ensures ColumnSum(snaps, P99Column, interval) == 0.0 && AckedWindows(snaps) == 0
    ensures PeakTps(snaps, interval) <= 100.0
  {
    if snaps != [] {
      assert Genuine(snaps[0]);
      SilentSums(snaps[1..], interval);
      assert Tps(snaps[0], interval) == 0.0;
    }
  }

  lemma {:induction false} SilentAcks(snaps: seq<Snapshot>)
    requires forall i :: 0 <= i < |snaps| ==> snaps[i].acked == 0
    ensures SumOf(snaps, Acked) == 0
  {
    if snaps != [] {
      SilentAcks(snaps[..|snaps| - 1]);
    }
  }

  /** An engine that never acknowledged an order still collects the whole latency score. */
  lemma SilenceScoresLatency(log: real -> real, w: Weights, snaps: seq<Snapshot>, interval: real)
    requires AllGenuine(snaps) && interval > 0.0 && forall i :: 0 <= i < |snaps| ==> snaps[i].acked == 0
    ensures Normalized(log, AggregateOf(snaps, interval)) == Scores(100.0, 0.0, 0.0, 0.0)
    ensures Composite(w, Normalized(log, AggregateOf(snaps, interval))) == w.latency * 100.0
  {
    SilentSums(snaps, interval);
    SilentAcks(snaps);
    AggregateOnScale(snaps, interval);
  }
}
