/** Which submissions can be benchmarked, and benchmarked again. */
module Reruns {
  import opened Lifecycle
  import opened LifecycleReach
  import opened LostRuns

  /** A run of the submission is being inserted, waits to be pushed, is queued, or is the worker's. */
  ghost predicate UnderWay(s: State, sub: Id) {
    sub in s.inserting
    || exists r :: r in s.runs && s.runs[r].sub == sub && (Waiting(s, r) || Current(s, r))
  }

  /** On this run of the system a run of the submission that is yet to be inserted comes to be
      built, its submission marked so. */
  ghost predicate BuildsNew(s: State, acts: seq<Action>, sub: Id) {
    Feasible(s, acts) && Reliable(s, acts) && NewAt(s, After(s, acts), sub, Building)
  }

  ghost predicate NewAt(s: State, n: State, sub: Id, goal: SubStatus) {
    && Reached(n, sub, goal) && sub in n.subs && n.subs[sub] == goal
    && n.pc.run !in s.everRuns && n.pc.run in n.runs && n.runs[n.pc.run].sub == sub
  }

  ghost predicate MayBuildNew(s: State, sub: Id) {
    exists acts :: BuildsNew(s, acts, sub)
  }

  /** The same for a new run that is completed, its submission with it. */
  ghost predicate CompletesNew(s: State, acts: seq<Action>, sub: Id, r: Id) {
    && Feasible(s, acts) && Reliable(s, acts)
    && var n := After(s, acts);
    && r !in s.everRuns && r in n.runs && n.runs[r] == Run(sub, RunCompleted)
    && sub in n.subs && n.subs[sub] == SubCompleted && !UnderWay(n, sub)
  }

  // ---------- Rows, and runs that are over ----------

  /** A run's row stays, with its submission, for as long as that does, and no row returns. */
  lemma StepKeepsRow(s: State, a: Action, r: Id)
    requires Enabled(s, a) && RowsLinked(s)
    ensures var n := Next(s, a);
            && s.everRuns <= n.everRuns
            && (r in s.everRuns && r in n.runs ==> r in s.runs && n.runs[r].sub == s.runs[r].sub)
            && (r in s.runs && s.runs[r].sub in n.subs ==> r in n.runs)
  {
    hide WorkerStep;
    if a.Work? {
      WorkFrame(s, a.outcome);
    }
  }

  lemma StepKeepsSub(s: State, a: Action, sub: Id)
    requires Enabled(s, a) && sub in s.everSubs && sub in Next(s, a).subs
    ensures sub in s.subs
  {
    hide WorkerStep;
    if a.Work? {
      WorkFrame(s, a.outcome);
    }
  }

  /** On any run of the system, whatever fails: a submission or run once gone never comes back,
      and a run's row goes only when its submission does. */
  lemma {:induction false} RowsStay(s: State, acts: seq<Action>, sub: Id, r: Id)
    requires Steady(s) && Feasible(s, acts) && sub in s.everSubs && sub in After(s, acts).subs
    ensures sub in s.subs
    ensures r in s.runs && s.runs[r].sub == sub ==> r in After(s, acts).runs && After(s, acts).runs[r].sub == sub
    ensures r in s.everRuns && r !in s.runs ==> r !in After(s, acts).runs
    decreases |acts|
  {
    hide Next, Enabled, QueueFaithful;
    if acts != [] {
      var n := Next(s, acts[0]);
      StepSteady(s, acts[0]);
      EverStays(s, acts[0], sub);
      RowsStay(n, acts[1..], sub, r);
      StepKeepsSub(s, acts[0], sub);
      StepKeepsRow(s, acts[0], r);
      EverStaysRun(s, acts[0], r);
    }
  }

  lemma EverStaysRun(s: State, a: Action, r: Id)
    requires Enabled(s, a) && RowsLinked(s)
    ensures r in s.everRuns ==> r in Next(s, a).everRuns
    ensures r in s.runs ==> r in s.everRuns
  {
    StepKeepsRow(s, a, r);
  }

  predicate Over(s: State, r: Id) {
    r in s.everRuns && !Waiting(s, r) && !Current(s, r)
  }

  lemma StepKeepsOver(s: State, a: Action, r: Id)
    requires Enabled(s, a) && Over(s, r)
    ensures Over(Next(s, a), r)
  {
    hide WorkerStep;
    if a.Work? {
      WorkFrame(s, a.outcome);
    }
  }

  lemma {:induction false} StaysOver(s: State, acts: seq<Action>, r: Id)
    requires Steady(s) && Feasible(s, acts) && r in s.everRuns
    ensures var n := After(s, acts);
            && s.everRuns <= n.everRuns && (Over(s, r) ==> Over(n, r))
            && (r in n.runs ==> r in s.runs && n.runs[r].sub == s.runs[r].sub)
    decreases |acts|
  {
    hide Next, Enabled, Over, QueueFaithful;
    if acts != [] {
      StepSteady(s, acts[0]);
      StepKeepsRow(s, acts[0], r);
      if Over(s, r) {
        StepKeepsOver(s, acts[0], r);
      }
      StaysOver(Next(s, acts[0]), acts[1..], r);
    }
  }

  lemma SoundIsSteady(s: State)
    requires Sound(s)
    ensures Steady(s) && RowsLinked(s) && WorkerLinked(s)
  {
    if s.pc != Idle && s.pc.run in s.runs {
      assert RunMatches(s.pc, s.runs[s.pc.run].status);
    }
    if s.pc != Idle {
      assert s.dequeued[|s.dequeued| - 1] == s.pc.run;
    }
  }

  /** Where a submission had no run under way, the run the worker comes to have of it is new. */
  lemma OnlyNew(s: State, acts: seq<Action>, sub: Id)
    requires Sound(s) && !UnderWay(s, sub) && Feasible(s, acts)
    requires var n := After(s, acts); n.pc != Idle && n.pc.run in n.runs && n.runs[n.pc.run].sub == sub
    ensures After(s, acts).pc.run !in s.everRuns
  {
    hide Feasible, After;
    var r := After(s, acts).pc.run;
    SoundIsSteady(s);
    if r in s.everRuns {
      StaysOver(s, acts, r);
    }
  }

  lemma WorkersOwn(s: State, sub: Id)
    requires Sound(s) && s.pc.At? && s.pc.sub == sub && sub in s.subs
    ensures s.pc.run in s.runs && s.runs[s.pc.run].sub == sub
  {
    hide QueueFaithful, RowsLinked, RunsMatch, SubsOwned, Accurate;
  }

  // ---------- From a runnable submission to its run at work ----------

  /** The request: check, insert, push. */
  lemma Triggered(s: State, sub: Id, r: Id) returns (n: State)
    requires Sound(s) && sub in s.subs && s.subs[sub] in {SubStatus.Pending, Ready, SubCompleted} && r !in s.everRuns
    ensures Sound(n) && n.subs == s.subs && n.pc == s.pc && n.everRuns == s.everRuns + {r}
    ensures n.inserting == s.inserting && r in n.queue && r in n.runs && n.runs[r].sub == sub
    ensures forall rest :: Feasible(n, rest) && Reliable(n, rest) ==>
              var acts := [TriggerCheck(sub)] + ([TriggerInsert(sub, r)] + ([TriggerEnqueue(r)] + rest));
              Feasible(s, acts) && Reliable(s, acts) && After(s, acts) == After(n, rest)
  {
    hide Feasible, Reliable, After, Sound;
    var a, b, c := TriggerCheck(sub), TriggerInsert(sub, r), TriggerEnqueue(r);
    StepSound(s, a);
    var s1 := Next(s, a);
    StepSound(s1, b);
    var s2 := Next(s1, b);
    StepSound(s2, c);
    n := Next(s2, c);
    assert n.queue[0] == r;
    assert n.inserting == s.inserting;
    forall rest | Feasible(n, rest) && Reliable(n, rest)
      ensures var acts := [a] + ([b] + ([c] + rest));
              Feasible(s, acts) && Reliable(s, acts) && After(s, acts) == After(n, rest)
    {
      Onward(s2, c, rest);
      Onward(s1, b, [c] + rest);
      Onward(s, a, [b] + ([c] + rest));
    }
  }

  lemma ReachNew(s: State, sub: Id, goal: SubStatus) returns (acts: seq<Action>)
    requires Sound(s) && sub in s.subs && s.subs[sub] in {SubStatus.Pending, Ready, SubCompleted}
    requires !UnderWay(s, sub) && IsGoal(goal)
    ensures Feasible(s, acts) && Reliable(s, acts) && NewAt(s, After(s, acts), sub, goal)
  {
    hide Feasible, Reliable, After, Sound, UnderWay, Reached;
    var r := UnusedId(s.everRuns);
    var n := Triggered(s, sub, r);
    var rest := Drive(n, sub, r, goal);
    acts := [TriggerCheck(sub)] + ([TriggerInsert(sub, r)] + ([TriggerEnqueue(r)] + rest));
    RunSound(s, acts);
    AtStage(After(s, acts), sub, goal);
    WorkersOwn(After(s, acts), sub);
    OnlyNew(s, acts, sub);
  }

  lemma AtStage(s: State, sub: Id, goal: SubStatus)
    requires Reached(s, sub, goal)
    ensures s.pc.At? && s.pc.sub == sub
  {
  }

  /** From any state a reliable run reaches, with no run of it under way: some reliable run of
      the system goes on to build a new run of the submission if and only if it is pending, ready
      or completed, or has yet to be created. */
  lemma MayBuildNewIff(s0: State, past: seq<Action>, sub: Id)
    requires Initial(s0) && Feasible(s0, past) && Reliable(s0, past) && !UnderWay(After(s0, past), sub)
    ensures var s := After(s0, past);
            MayBuildNew(s, sub) <==>
              sub !in s.everSubs
              || (sub in s.subs && (s.subs[sub] == SubStatus.Pending || s.subs[sub] == Ready || s.subs[sub] == SubCompleted))
  {
    hide Sound, UnderWay, NewAt, Feasible, Reliable, After, Dormant;
    InitialSound(s0);
    RunSound(s0, past);
    var s := After(s0, past);
    if sub !in s.everSubs {
      var rest := Created(s, sub);
    } else if sub in s.subs && s.subs[sub] in {SubStatus.Pending, Ready, SubCompleted} {
      var acts := ReachNew(s, sub, Building);
      assert BuildsNew(s, acts, sub);
    } else {
      RestsDormant(s, sub);
      if MayBuildNew(s, sub) {
        var acts :| BuildsNew(s, acts, sub);
        RunKeepsDormant(s, acts, sub);
        DormantUnbuilt(After(s, acts), sub);
        NewBuilds(s, After(s, acts), sub);
      }
    }
  }

  lemma NewBuilds(s: State, n: State, sub: Id)
    requires NewAt(s, n, sub, Building)
    ensures sub in n.subs && n.subs[sub].Building?
  {
  }

  lemma DormantUnbuilt(s: State, sub: Id)
    requires Dormant(s, sub)
    ensures sub in s.subs ==> !s.subs[sub].Building?
  {
  }

  lemma RestsDormant(s: State, sub: Id)
    requires Sound(s) && !UnderWay(s, sub) && sub in s.everSubs
    requires sub !in s.subs || !(s.subs[sub] in {SubStatus.Pending, Ready, SubCompleted})
    ensures Dormant(s, sub)
  {
    if sub in s.subs {
      assert s.subs[sub].SubFailed?;
      forall r
        ensures !PendingRun(s, sub, r, Building)
      {
        assert OnTheWay(s.pc, r, Building) ==> Current(s, r);
      }
    }
  }

  lemma Created(s: State, sub: Id) returns (acts: seq<Action>)
    requires Sound(s) && sub !in s.everSubs
    ensures BuildsNew(s, acts, sub)
  {
    hide Sound, Reached, Feasible, Reliable, After;
    var a := Create(sub);
    StepSound(s, a);
    var n := Next(s, a);
    NewcomerRests(s, sub);
    var rest := ReachNew(n, sub, Building);
    Onward(s, a, rest);
    acts := [a] + rest;
  }

  lemma NewcomerRests(s: State, sub: Id)
    requires Sound(s) && sub !in s.everSubs
    ensures !UnderWay(Next(s, Create(sub)), sub)
  {
    hide QueueFaithful, WorkerLinked, RunsMatch, SubsOwned;
  }

  // ---------- And on to its completion ----------

  /** The worker's way from the fleet's start to the end of the run. */
  predicate OnLastLeg(s: State, r: Id, sub: Id) {
    && s.pc.At? && s.pc.run == r && s.pc.sub == sub && sub in s.subs && r in s.runs && s.runs[r].sub == sub
    && s.pc.stage in {StartFleet, Benchmark, StopFleet, StopIngester, Score, TearDown, MarkCompleted, MarkSubCompleted}
    && (s.pc.stage == MarkSubCompleted ==> s.runs[r].status == RunCompleted)
  }

  predicate Finished(s: State, r: Id, sub: Id) {
    s.pc == Idle && r in s.runs && s.runs[r] == Run(sub, RunCompleted) && sub in s.subs && s.subs[sub] == SubCompleted
  }

  /** What the worker's own steps leave alone. */
  predicate SameRequests(s: State, n: State) {
    n.inserting == s.inserting && n.enqueuing == s.enqueuing && n.everRuns == s.everRuns
  }

  lemma LegOnward(s: State, r: Id, sub: Id)
    requires OnLastLeg(s, r, sub)
    ensures var n := WorkerStep(s, Succeeds);
            SameRequests(s, n) && (OnLastLeg(n, r, sub) || Finished(n, r, sub))
  {
  }

  lemma {:induction false} Finish(s: State, r: Id, sub: Id) returns (acts: seq<Action>)
    requires OnLastLeg(s, r, sub)
    ensures Feasible(s, acts) && Reliable(s, acts) && Finished(After(s, acts), r, sub)
    ensures SameRequests(s, After(s, acts))
    decreases Remaining(s.pc)
  {
    hide Feasible, Reliable, After, Finished, WorkerStep, Remaining;
    var n := WorkerStep(s, Succeeds);
    LegOnward(s, r, sub);
    WorkAdvances(s, Succeeds);
    SuccessDependable(s.pc);
    var rest := [];
    if Finished(n, r, sub) {
      NothingLeft(n);
    } else {
      rest := Finish(n, r, sub);
    }
    Onward(s, Work(Succeeds), rest);
    acts := [Work(Succeeds)] + rest;
  }

  lemma WorkerLeaves(s: State, a: Action)
    requires Enabled(s, a) && (a.Dequeue? || a.Work?)
    ensures SameRequests(s, Next(s, a))
  {
    hide WorkerStep;
    if a.Work? {
      WorkFrame(s, a.outcome);
      WorkLeavesRequests(s, a.outcome);
    }
  }

  lemma {:induction false} WorkerLeavesRequests(s: State, acts: seq<Action>)
    requires Feasible(s, acts) && WorkerOnly(acts)
    ensures SameRequests(s, After(s, acts))
    decreases |acts|
  {
    hide Next, Enabled;
    if acts != [] {
      assert acts[0].Dequeue? || acts[0].Work?;
      WorkerLeaves(s, acts[0]);
      WorkerLeavesRequests(Next(s, acts[0]), acts[1..]);
    }
  }

  lemma {:induction false} Reversed(q: seq<Id>, r: Id)
    ensures r in q <==> r in Reverse(q)
  {
    if q != [] {
      Reversed(q[1..], r);
      assert q == [q[0]] + q[1..];
    }
  }

  lemma TakenNotWaiting(s: State, r: Id)
    requires QueueFaithful(s) && Dequeued(s, r)
    ensures !Waiting(s, r)
  {
    var i :| 0 <= i < |s.dequeued| && s.dequeued[i] == r;
    assert s.enqueued[i] == r;
    Reversed(s.queue, r);
    var later := Reverse(s.queue);
    forall j | 0 <= j < |later|
      ensures later[j] != r
    {
      assert s.enqueued[|s.dequeued| + j] == later[j];
    }
  }

  /** Nothing of the submission is under way once its only new run is done with. */
  lemma NoMoreUnderWay(s: State, acts: seq<Action>, sub: Id, r: Id)
    requires Sound(s) && !UnderWay(s, sub) && Feasible(s, acts) && Reliable(s, acts) && r !in s.everRuns
    requires var n := After(s, acts);
             n.pc == Idle && n.inserting == s.inserting && n.everRuns == s.everRuns + {r} && Dequeued(n, r)
    ensures !UnderWay(After(s, acts), sub)
  {
    hide Feasible, Reliable, After, Sound, Dequeued, Waiting;
    var n := After(s, acts);
    RunSound(s, acts);
    SoundIsSteady(s);
    SoundIsSteady(n);
    SteadyQueue(n);
    TakenNotWaiting(n, r);
    forall q | q in n.runs && n.runs[q].sub == sub
      ensures !Waiting(n, q)
    {
      assert q in n.everRuns;
      if q != r {
        StaysOver(s, acts, q);
      }
    }
  }

  lemma SteadyQueue(s: State)
    requires Steady(s)
    ensures QueueFaithful(s) && forall r :: r in s.runs ==> r in s.everRuns
  {
  }

  lemma WorkersRunTaken(s: State, acts: seq<Action>)
    requires Sound(s) && s.pc != Idle && Feasible(s, acts)
    ensures Dequeued(After(s, acts), s.pc.run)
  {
    SoundIsSteady(s);
    assert s.dequeued[|s.dequeued| - 1] == s.pc.run;
    StaysTaken(s, acts, s.pc.run);
  }

  lemma {:induction false} StaysTaken(s: State, acts: seq<Action>, r: Id)
    requires Feasible(s, acts) && Dequeued(s, r)
    ensures Dequeued(After(s, acts), r)
    decreases |acts|
  {
    hide Enabled;
    if acts != [] {
      var n := Next(s, acts[0]);
      var i :| 0 <= i < |s.dequeued| && s.dequeued[i] == r;
      StepKeepsTaken(s, acts[0]);
      assert n.dequeued[i] == r;
      StaysTaken(n, acts[1..], r);
    }
  }

  lemma StepKeepsTaken(s: State, a: Action)
    requires Enabled(s, a)
    ensures s.dequeued <= Next(s, a).dequeued
  {
    hide WorkerStep;
    if a.Work? {
      WorkFrame(s, a.outcome);
    }
  }

  /** From any state a reliable run reaches: a submission that is pending, ready or completed,
      with no run of it under way, can be benchmarked to a completed run, and is then as it was
      before, free to be benchmarked again, and again. */
  lemma CanComplete(s0: State, past: seq<Action>, sub: Id) returns (acts: seq<Action>, r: Id)
    requires Initial(s0) && Feasible(s0, past) && Reliable(s0, past)
    requires var s := After(s0, past);
             && sub in s.subs && !UnderWay(s, sub)
             && (s.subs[sub] == SubStatus.Pending || s.subs[sub] == Ready || s.subs[sub] == SubCompleted)
    ensures CompletesNew(After(s0, past), acts, sub, r)
    ensures Feasible(s0, past + acts) && Reliable(s0, past + acts)
            && After(s0, past + acts) == After(After(s0, past), acts)
  {
    hide Sound, Feasible, Reliable, After, CompletesNew;
    InitialSound(s0);
    RunSound(s0, past);
    acts, r := Complete(After(s0, past), sub);
    RunsJoinedNew(s0, past, acts, sub, r);
  }

  lemma RunsJoinedNew(s0: State, past: seq<Action>, acts: seq<Action>, sub: Id, r: Id)
    requires Feasible(s0, past) && Reliable(s0, past) && CompletesNew(After(s0, past), acts, sub, r)
    ensures Feasible(s0, past + acts) && Reliable(s0, past + acts)
            && After(s0, past + acts) == After(After(s0, past), acts)
  {
    hide Feasible, Reliable, After, UnderWay;
    RunsJoined(s0, past, acts);
  }

  lemma Complete(s: State, sub: Id) returns (acts: seq<Action>, r: Id)
    requires Sound(s) && sub in s.subs && s.subs[sub] in {SubStatus.Pending, Ready, SubCompleted} && !UnderWay(s, sub)
    ensures CompletesNew(s, acts, sub, r)
  {
    hide Feasible, Reliable, After, Sound, UnderWay, Finished, OnLastLeg, Dequeued, Reached;
    r := UnusedId(s.everRuns);
    var n := Triggered(s, sub, r);
    var drive := Drive(n, sub, r, SubRunning);
    var m := After(n, drive);
    RunSound(n, drive);
    WorkerLeavesRequests(n, drive);
    AtStage(m, sub, SubRunning);
    var start := [TriggerCheck(sub)] + ([TriggerInsert(sub, r)] + ([TriggerEnqueue(r)] + drive));
    WorkersOwn(m, sub);
    OnlyNew(s, start, sub);
    SoundIsSteady(m);
    SteadyQueue(m);
    assert m.pc.run == r;
    LegStarts(m, r, sub);
    var finish := Finish(m, r, sub);
    WorkersRunTaken(m, finish);
    RunsJoined(s, start, finish);
    acts := start + finish;
    FinishedIs(After(s, acts), r, sub);
    NoMoreUnderWay(s, acts, sub, r);
  }

  lemma LegStarts(s: State, r: Id, sub: Id)
    requires Reached(s, sub, SubRunning) && sub in s.subs && s.pc.run == r && r in s.runs && s.runs[r].sub == sub
    ensures OnLastLeg(s, r, sub)
  {
  }

  lemma FinishedIs(s: State, r: Id, sub: Id)
    requires Finished(s, r, sub)
    ensures s.pc == Idle && r in s.runs && s.runs[r] == Run(sub, RunCompleted) && sub in s.subs && s.subs[sub] == SubCompleted
  {
  }

  /** So from the start a submission can come to have two completed runs. */
  lemma BenchmarkedTwice(s0: State) returns (acts: seq<Action>, sub: Id, q: Id, r: Id)
    requires Initial(s0)
    ensures Feasible(s0, acts) && Reliable(s0, acts) && q != r
    ensures var n := After(s0, acts);
            && q in n.runs && n.runs[q] == Run(sub, RunCompleted)
            && r in n.runs && n.runs[r] == Run(sub, RunCompleted)
            && sub in n.subs && n.subs[sub] == SubCompleted
  {
    hide Feasible, Reliable, After, UnderWay, Steady;
    sub := UnusedId(s0.everSubs);
    var c := [Create(sub)] + [];
    var first, second;
    CreatedRests(s0, sub);
    first, q := CanComplete(s0, c, sub);
    var past := c + first;
    second, r := CanComplete(s0, past, sub);
    acts := past + second;
    InitialSteady(s0);
    RunSteady(s0, past);
    CompletedStays(After(s0, past), second, sub, q);
    EndedForGood(s0, past, second, q);
  }

  lemma CompletedStays(s: State, acts: seq<Action>, sub: Id, q: Id)
    requires Steady(s) && Feasible(s, acts) && q in s.runs && s.runs[q].sub == sub && sub in After(s, acts).subs
    ensures q in s.everRuns && q in After(s, acts).runs && After(s, acts).runs[q].sub == sub
  {
    hide Feasible, After, QueueFaithful;
    RowsStay(s, acts, sub, q);
  }

  lemma CreatedRests(s0: State, sub: Id)
    requires Initial(s0) && sub !in s0.everSubs
    ensures var c := [Create(sub)] + [];
            && Feasible(s0, c) && Reliable(s0, c)
            && var n := After(s0, c);
            && sub in n.subs && n.subs[sub] == SubStatus.Pending && !UnderWay(n, sub)
  {
    var a := Create(sub);
    NothingLeft(Next(s0, a));
    Onward(s0, a, []);
    InitialSound(s0);
    NewcomerRests(s0, sub);
  }
}
