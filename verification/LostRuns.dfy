/** A run inserted in the table whose push to the queue fails: nothing polls for it, so it stays
    queued for good. */
module LostRuns {
  import opened Lifecycle
  import opened LifecycleReach

  /** The run is yet to be pushed or is in the queue. */
  predicate Waiting(s: State, r: Id) {
    r in s.enqueuing || r in s.queue
  }

  /** Some run of the system from here on, be it one on which calls fail, takes this one. */
  ghost predicate MayBeTaken(s: State, r: Id) {
    exists acts :: Takes(s, acts, r)
  }

  ghost predicate Takes(s: State, acts: seq<Action>, r: Id) {
    Feasible(s, acts) && Dequeued(After(s, acts), r)
  }

  /** Never taken and not waiting to be: queued in the table, if it is still there. */
  predicate Lost(s: State, r: Id) {
    r in s.everRuns && !Waiting(s, r) && !Dequeued(s, r) && (r in s.runs ==> s.runs[r].status == Queued)
  }

  lemma ApiKeepsLost(s: State, a: Action, r: Id)
    requires Lost(s, r) && Enabled(s, a) && !a.Work? && !a.Dequeue?
    ensures Lost(Next(s, a), r)
  {
    assert Dequeued(Next(s, a), r) == Dequeued(s, r);
  }

  lemma StepKeepsLost(s: State, a: Action, r: Id)
    requires Steady(s) && Lost(s, r) && Enabled(s, a)
    ensures Lost(Next(s, a), r)
  {
    hide WorkerStep, WritesAhead;
    match a
    case Work(o) =>
      WorkFrame(s, o);
      WorkWrites(s, o);
      assert Dequeued(s, s.pc.run);
      assert Dequeued(WorkerStep(s, o), r) == Dequeued(s, r);
    case Dequeue =>
      DequeuedExtended(s, Next(s, Dequeue), r);
    case _ => ApiKeepsLost(s, a, r);
  }

  lemma {:induction false} StaysLost(s: State, acts: seq<Action>, r: Id)
    requires Steady(s) && Lost(s, r) && Feasible(s, acts)
    ensures Lost(After(s, acts), r)
    decreases |acts|
  {
    hide Steady, Lost, Next, Enabled;
    if acts != [] {
      StepSteady(s, acts[0]);
      StepKeepsLost(s, acts[0], r);
      StaysLost(Next(s, acts[0]), acts[1..], r);
    }
  }

  /** A run neither taken nor waiting, on whatever run of the system that came about, is never
      taken, and its status stays queued, whatever comes and whatever fails. */
  lemma LostForGood(s0: State, past: seq<Action>, acts: seq<Action>, r: Id)
    requires Initial(s0) && Feasible(s0, past) && Feasible(After(s0, past), acts)
    requires var s := After(s0, past); r in s.everRuns && !Waiting(s, r) && !Dequeued(s, r)
    ensures var n := After(After(s0, past), acts);
            !Waiting(n, r) && !Dequeued(n, r) && (r in n.runs ==> n.runs[r].status == Queued)
  {
    hide Feasible, After;
    InitialSteady(s0);
    RunSteady(s0, past);
    StaysLost(After(s0, past), acts, r);
  }

  lemma TakesOnward(s: State, a: Action, rest: seq<Action>, r: Id)
    requires Enabled(s, a) && Takes(Next(s, a), rest, r)
    ensures Takes(s, [a] + rest, r)
  {
    hide Dequeued;
    assert ([a] + rest)[1..] == rest;
  }

  /** The worker alone gets to a run in the queue. */
  lemma {:induction false} TakeFromQueue(s: State, r: Id) returns (acts: seq<Action>)
    requires r in s.queue
    ensures Takes(s, acts, r)
    decreases |s.queue|, Remaining(s.pc)
  {
    hide Takes, Remaining, WorkerStep;
    var a := Turn(s);
    var n := Next(s, a);
    var rest: seq<Action>;
    if s.pc != Idle {
      WorkFrame(s, Succeeds);
      WorkAdvances(s, Succeeds);
      rest := TakeFromQueue(n, r);
    } else if r in n.queue {
      rest := TakeFromQueue(n, r);
    } else {
      rest := [];
      LastTaken(s, r);
    }
    TakesOnward(s, a, rest, r);
    acts := [a] + rest;
  }

  lemma LastTaken(s: State, r: Id)
    requires s.pc == Idle && r in s.queue && r !in Next(s, Dequeue).queue
    ensures Takes(Next(s, Dequeue), [], r)
  {
    var last := |s.queue| - 1;
    assert s.queue == s.queue[..last] + [s.queue[last]];
    assert Next(s, Dequeue).dequeued[|s.dequeued|] == r;
  }

  /** On whatever run of the system it was inserted, a run not yet taken may still be taken if
      and only if it is waiting to be pushed or is in the queue. */
  lemma MayBeTakenIff(s0: State, past: seq<Action>, r: Id)
    requires Initial(s0) && Feasible(s0, past)
    requires var s := After(s0, past); r in s.everRuns && !Dequeued(s, r)
    ensures var s := After(s0, past); MayBeTaken(s, r) <==> Waiting(s, r)
  {
    hide Feasible, After, Dequeued;
    var s := After(s0, past);
    if r in s.queue {
      var acts := TakeFromQueue(s, r);
    } else if r in s.enqueuing {
      var a := TriggerEnqueue(r);
      assert Next(s, a).queue[0] == r;
      var acts := TakeFromQueue(Next(s, a), r);
      TakesOnward(s, a, acts, r);
    } else if MayBeTaken(s, r) {
      var acts :| Takes(s, acts, r);
      LostForGood(s0, past, acts, r);
    }
  }

  /** It happens: a run from the start, nothing failing but one push, to a run of a submission
      that is queued in the table and will never be taken. */
  lemma PushFailedLoses(s0: State) returns (acts: seq<Action>, sub: Id, r: Id)
    requires Initial(s0)
    ensures Feasible(s0, acts) && Reliable(s0, acts)
    ensures var s := After(s0, acts);
            && r in s.runs && s.runs[r] == Run(sub, Queued) && sub in s.subs
            && !Dequeued(s, r) && !MayBeTaken(s, r)
  {
    hide Feasible, Reliable, After, Dequeued, MayBeTaken;
    sub := UnusedId(s0.everSubs);
    r := UnusedId(s0.everRuns);
    var c, t, i, f := Create(sub), TriggerCheck(sub), TriggerInsert(sub, r), TriggerEnqueueFails(r);
    var s1 := Next(s0, c);
    var s2 := Next(s1, t);
    var s3 := Next(s2, i);
    var s := Next(s3, f);
    NothingLeft(s);
    Onward(s3, f, []);
    Onward(s2, i, [f] + []);
    Onward(s1, t, [i] + ([f] + []));
    Onward(s0, c, [t] + ([i] + ([f] + [])));
    acts := [c] + ([t] + ([i] + ([f] + [])));
    NoneTaken(s, r);
    MayBeTakenIff(s0, acts, r);
  }

  lemma NoneTaken(s: State, r: Id)
    requires s.dequeued == []
    ensures !Dequeued(s, r)
  {
  }
}
