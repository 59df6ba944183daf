/** Two things the statuses do not prevent, deleting a submission while its benchmark runs and
    building a failed one again: runs on which they happen, and exactly when they can. */
module LifecycleReach {
  import opened Lifecycle

  // ---------- Joining runs ----------

  lemma Onward(s: State, a: Action, rest: seq<Action>)
    requires Enabled(s, a) && (a.Work? ==> Dependable(s.pc, a.outcome))
    requires Feasible(Next(s, a), rest) && Reliable(Next(s, a), rest)
    ensures Feasible(s, [a] + rest) && Reliable(s, [a] + rest) && After(s, [a] + rest) == After(Next(s, a), rest)
  {
    assert ([a] + rest)[1..] == rest;
  }

  lemma NothingLeft(s: State)
    ensures Feasible(s, []) && Reliable(s, []) && After(s, []) == s
  {
  }

  // ---------- What else reliable runs keep ----------

  /** The worker marks its submission building before the build and running before the fleet,
      and nothing else writes that submission's status meanwhile. */
  predicate StatusAtStage(stage: Stage, status: SubStatus) {
    match stage
    case Build => status.Building?
    case Launch => status.Building?
    case AwaitHealth => status.Building?
    case MarkSubRunning => status.Building?
    case StartFleet => status.SubRunning?
    case Benchmark => status.SubRunning?
    case StopFleet => status.SubRunning?
    case StopIngester => status.SubRunning?
    case Score => status.SubRunning?
    case TearDown => status.SubRunning?
    case MarkCompleted => status.SubRunning?
    case MarkSubCompleted => status.SubRunning?
    case _ => true
  }

  predicate Accurate(s: State) {
    && (s.pc.At? && s.pc.sub in s.subs ==> StatusAtStage(s.pc.stage, s.subs[s.pc.sub]))
    && (forall sub :: sub in s.deleting ==> sub in s.everSubs)
    && (forall sub :: sub in s.inserting ==> sub in s.everSubs)
  }

  lemma StageStepAccurate(s: State, o: Outcome)
    requires Accurate(s) && s.pc.At? && Dependable(s.pc, o) && NotShuttingDown(s.pc)
    ensures var n := WorkerStep(s, o);
            n.pc.At? && n.pc.sub in n.subs ==> StatusAtStage(n.pc.stage, n.subs[n.pc.sub])
  {
  }

  lemma WorkAccurate(s: State, o: Outcome)
    requires Invariant(s) && Accurate(s) && s.pc != Idle && Dependable(s.pc, o)
    ensures Accurate(WorkerStep(s, o))
  {
    if s.pc.At? {
      StageStepAccurate(s, o);
    }
  }

  lemma ApiAccurate(s: State, a: Action)
    requires Invariant(s) && Accurate(s) && Enabled(s, a) && !a.Work?
    ensures Accurate(Next(s, a))
  {
  }

  lemma StepAccurate(s: State, a: Action)
    requires Invariant(s) && Accurate(s) && Enabled(s, a) && (a.Work? ==> Dependable(s.pc, a.outcome))
    ensures Accurate(Next(s, a))
  {
    if a.Work? {
      WorkAccurate(s, a.outcome);
    } else {
      ApiAccurate(s, a);
    }
  }

  ghost predicate Sound(s: State) {
    Invariant(s) && Accurate(s)
  }

  lemma StepSound(s: State, a: Action)
    requires Sound(s) && Enabled(s, a) && (a.Work? ==> Dependable(s.pc, a.outcome))
    ensures Sound(Next(s, a))
  {
    hide Invariant, Accurate;
    StepKeeps(s, a);
    StepAccurate(s, a);
  }

  lemma {:induction false} RunSound(s: State, acts: seq<Action>)
    requires Sound(s) && Feasible(s, acts) && Reliable(s, acts)
    ensures Sound(After(s, acts))
    decreases |acts|
  {
    hide Sound, Enabled, Next, Dependable;
    if acts != [] {
      StepSound(s, acts[0]);
      RunSound(Next(s, acts[0]), acts[1..]);
    }
  }

  lemma InitialSound(s: State)
    requires Initial(s)
    ensures Sound(s)
  {
  }

  // ---------- A run on its way ----------

  /** The stages up to the one that gives the submission this status. */
  predicate StageBefore(stage: Stage, goal: SubStatus) {
    match stage
    case MarkRunning => true
    case MarkBuilding => true
    case Build => goal.SubRunning?
    case Launch => goal.SubRunning?
    case AwaitHealth => goal.SubRunning?
    case MarkSubRunning => goal.SubRunning?
    case _ => false
  }

  predicate OnTheWay(pc: Pc, r: Id, goal: SubStatus) {
    match pc
    case Loading(q) => q == r
    case LoadingSub(q, _) => q == r
    case At(stage, q, _) => q == r && StageBefore(stage, goal)
    case _ => false
  }

  /** A run of this submission that the worker will come to, or is taking there. */
  predicate Driven(s: State, sub: Id, r: Id, goal: SubStatus) {
    r in s.runs && s.runs[r].sub == sub && (r in s.queue || OnTheWay(s.pc, r, goal))
  }

  predicate IsGoal(goal: SubStatus) {
    goal.Building? || goal.SubRunning?
  }

  /** The worker's next action if nothing fails. */
  function Turn(s: State): Action {
    if s.pc == Idle then Dequeue else Work(Succeeds)
  }

  lemma DequeueDrives(s: State, sub: Id, r: Id, goal: SubStatus)
    requires Driven(s, sub, r, goal) && s.pc == Idle && sub in s.subs
    ensures Enabled(s, Dequeue) && Driven(Next(s, Dequeue), sub, r, goal) && sub in Next(s, Dequeue).subs
    ensures |Next(s, Dequeue).queue| < |s.queue| && Next(s, Dequeue).deleting == s.deleting
  {
    var last := |s.queue| - 1;
    var i :| 0 <= i < |s.queue| && s.queue[i] == r;
    if i < last {
      assert s.queue[..last][i] == r;
    }
  }

  lemma WorkDrives(s: State, sub: Id, r: Id, goal: SubStatus)
    requires Invariant(s) && Driven(s, sub, r, goal) && s.pc != Idle && sub in s.subs && IsGoal(goal)
    ensures var n := WorkerStep(s, Succeeds);
            && sub in n.subs && (n.subs[sub] == goal || Driven(n, sub, r, goal))
            && n.queue == s.queue && n.deleting == s.deleting
  {
    WorkFrame(s, Succeeds);
    if !(r in s.queue) {
      WayWorks(s, sub, r, goal);
    }
  }

  lemma WayWorks(s: State, sub: Id, r: Id, goal: SubStatus)
    requires WorkerLinked(s) && r in s.runs && s.runs[r].sub == sub && OnTheWay(s.pc, r, goal)
    requires sub in s.subs && IsGoal(goal)
    ensures var n := WorkerStep(s, Succeeds);
            && sub in n.subs && (n.subs[sub] == goal || OnTheWay(n.pc, r, goal))
            && n.runs.Keys == s.runs.Keys && n.runs[r].sub == sub && n.deleting == s.deleting
  {
    hide Invariant;
  }

  /** The worker is at the stage after the one that writes this status. */
  predicate Reached(s: State, sub: Id, goal: SubStatus) {
    s.pc.At? && s.pc.sub == sub && s.pc.stage == if goal.Building? then Build else StartFleet
  }

  lemma GoalReached(s: State, sub: Id, goal: SubStatus)
    requires s.pc != Idle && sub in s.subs && IsGoal(goal) && s.subs[sub] != goal
    ensures var n := WorkerStep(s, Succeeds); sub in n.subs && n.subs[sub] == goal ==> Reached(n, sub, goal)
  {
  }

  predicate WorkerOnly(acts: seq<Action>) {
    forall i :: 0 <= i < |acts| ==> acts[i].Dequeue? || acts[i].Work?
  }

  /** The worker alone, nothing failing, gets a driven run's submission to the status. */
  lemma {:induction false} Drive(s: State, sub: Id, r: Id, goal: SubStatus) returns (acts: seq<Action>)
    requires Sound(s) && sub in s.subs && IsGoal(goal) && (s.subs[sub] == goal || Driven(s, sub, r, goal))
    ensures Feasible(s, acts) && Reliable(s, acts) && WorkerOnly(acts)
    ensures var n := After(s, acts); sub in n.subs && n.subs[sub] == goal && n.deleting == s.deleting
    ensures s.subs[sub] != goal ==> Reached(After(s, acts), sub, goal)
    decreases |s.queue|, Remaining(s.pc)
  {
    hide Sound, Feasible, Reliable, After, Driven, Next, Reached;
    if s.subs[sub] == goal {
      acts := [];
      NothingLeft(s);
    } else {
      var a := Turn(s);
      TurnDrives(s, sub, r, goal);
      if Next(s, a).subs[sub] == goal {
        acts := [a] + [];
        NothingLeft(Next(s, a));
        Onward(s, a, []);
      } else {
        var rest := Drive(Next(s, a), sub, r, goal);
        Onward(s, a, rest);
        acts := [a] + rest;
      }
    }
  }

  lemma TurnDrives(s: State, sub: Id, r: Id, goal: SubStatus)
    requires Sound(s) && sub in s.subs && IsGoal(goal) && s.subs[sub] != goal && Driven(s, sub, r, goal)
    ensures var a := Turn(s);
            && Enabled(s, a) && (a.Work? ==> Dependable(s.pc, a.outcome))
            && var n := Next(s, a);
            && Sound(n) && sub in n.subs && (n.subs[sub] == goal || Driven(n, sub, r, goal)) && n.deleting == s.deleting
            && (n.subs[sub] == goal ==> Reached(n, sub, goal))
            && (|n.queue| < |s.queue| || (|n.queue| == |s.queue| && Remaining(n.pc) < Remaining(s.pc)))
  {
    hide Driven, WorkerStep, Accurate, Remaining, Invariant;
    if s.pc == Idle {
      DequeueDrives(s, sub, r, goal);
    } else {
      WorkDrives(s, sub, r, goal);
      WorkAdvances(s, Succeeds);
      SuccessDependable(s.pc);
      GoalReached(s, sub, goal);
    }
    StepSound(s, Turn(s));
  }

  lemma SuccessDependable(pc: Pc)
    ensures Dependable(pc, Succeeds)
  {
  }

  // ---------- A run pending ----------

  predicate PendingRun(s: State, sub: Id, r: Id, goal: SubStatus) {
    r in s.runs && s.runs[r].sub == sub && (r in s.enqueuing || r in s.queue || OnTheWay(s.pc, r, goal))
  }

  /** A run of the submission is being inserted, waits to be pushed, is queued, or is with the
      worker, still before it gives the submission this status. */
  ghost predicate Pending(s: State, sub: Id, goal: SubStatus) {
    sub in s.inserting || exists r :: PendingRun(s, sub, r, goal)
  }

  /** No deletion among these. */
  predicate Quiet(acts: seq<Action>) {
    forall i :: 0 <= i < |acts| ==> !acts[i].DeleteCheck? && !acts[i].DeleteRow?
  }

  lemma {:induction false} UnusedId(used: set<Id>) returns (r: Id)
    ensures forall x :: x in used ==> x < r
  {
    r := 0;
    if used != {} {
      var x :| x in used;
      var m := UnusedId(used - {x});
      r := if x < m then m else x + 1;
      assert used == (used - {x}) + {x};
    }
  }

  /** A run on which a submission gets to a status. */
  ghost predicate Gets(s: State, acts: seq<Action>, sub: Id, goal: SubStatus) {
    && Feasible(s, acts) && Reliable(s, acts) && Quiet(acts)
    && sub in After(s, acts).subs && After(s, acts).subs[sub] == goal && After(s, acts).deleting == s.deleting
  }

  lemma GetsOnward(s: State, a: Action, rest: seq<Action>, sub: Id, goal: SubStatus)
    requires Enabled(s, a) && (a.Work? ==> Dependable(s.pc, a.outcome)) && !a.DeleteCheck? && !a.DeleteRow?
    requires Next(s, a).deleting == s.deleting && Gets(Next(s, a), rest, sub, goal)
    ensures Gets(s, [a] + rest, sub, goal)
  {
    hide Feasible, Reliable, After, Next, Enabled;
    Onward(s, a, rest);
  }

  lemma ReachFromRun(s: State, sub: Id, r: Id, goal: SubStatus) returns (acts: seq<Action>)
    requires Sound(s) && sub in s.subs && IsGoal(goal) && PendingRun(s, sub, r, goal)
    ensures Gets(s, acts, sub, goal)
  {
    hide Feasible, Reliable, After, Sound, OnTheWay, Gets;
    if r in s.queue || OnTheWay(s.pc, r, goal) {
      acts := Drive(s, sub, r, goal);
      DriveGets(s, acts, sub, goal);
    } else {
      var a := TriggerEnqueue(r);
      StepSound(s, a);
      var n := Next(s, a);
      assert n.queue[0] == r;
      var rest := Drive(n, sub, r, goal);
      DriveGets(n, rest, sub, goal);
      GetsOnward(s, a, rest, sub, goal);
      acts := [a] + rest;
    }
  }

  lemma DriveGets(s: State, acts: seq<Action>, sub: Id, goal: SubStatus)
    requires Feasible(s, acts) && Reliable(s, acts) && WorkerOnly(acts)
    requires var n := After(s, acts); sub in n.subs && n.subs[sub] == goal && n.deleting == s.deleting
    ensures Gets(s, acts, sub, goal)
  {
    hide Feasible, Reliable, After;
  }

  lemma ReachFromInserting(s: State, sub: Id, goal: SubStatus) returns (acts: seq<Action>)
    requires Sound(s) && sub in s.subs && IsGoal(goal) && sub in s.inserting
    ensures Gets(s, acts, sub, goal)
  {
    hide Feasible, Reliable, After, Sound, OnTheWay, Gets;
    var r := UnusedId(s.everRuns);
    var a := TriggerInsert(sub, r);
    StepSound(s, a);
    var n := Next(s, a);
    assert PendingRun(n, sub, r, goal);
    var rest := ReachFromRun(n, sub, r, goal);
    GetsOnward(s, a, rest, sub, goal);
    acts := [a] + rest;
  }

  lemma ReachFromPending(s: State, sub: Id, goal: SubStatus) returns (acts: seq<Action>)
    requires Sound(s) && sub in s.subs && IsGoal(goal) && Pending(s, sub, goal)
    ensures Gets(s, acts, sub, goal)
  {
    hide Sound, Gets;
    if sub in s.inserting {
      acts := ReachFromInserting(s, sub, goal);
    } else {
      var r :| PendingRun(s, sub, r, goal);
      acts := ReachFromRun(s, sub, r, goal);
    }
  }

  /** A run of this submission cannot become pending but by a request of its own. */
  lemma PendingBack(s: State, a: Action, sub: Id, goal: SubStatus)
    requires Sound(s) && Enabled(s, a) && (a.Work? ==> Dependable(s.pc, a.outcome)) && IsGoal(goal)
    requires Pending(Next(s, a), sub, goal) && sub in Next(s, a).subs
    ensures Pending(s, sub, goal) || a == TriggerCheck(sub)
  {
    var n := Next(s, a);
    if sub !in s.inserting && a != TriggerCheck(sub) {
      InsertingBack(s, a, sub);
      var r :| PendingRun(n, sub, r, goal);
      PendingRunBack(s, a, sub, r, goal);
    }
  }

  lemma InsertingBack(s: State, a: Action, sub: Id)
    requires Enabled(s, a) && sub !in s.inserting && a != TriggerCheck(sub)
    ensures sub !in Next(s, a).inserting
  {
    hide WorkerStep;
    if a.Work? {
      WorkLeavesRequests(s, a.outcome);
    }
  }

  lemma WorkLeavesRequests(s: State, o: Outcome)
    requires s.pc != Idle
    ensures var n := WorkerStep(s, o); n.inserting == s.inserting && n.deleting == s.deleting
  {
  }

  lemma PendingRunBack(s: State, a: Action, sub: Id, r: Id, goal: SubStatus)
    requires Sound(s) && Enabled(s, a) && (a.Work? ==> Dependable(s.pc, a.outcome)) && IsGoal(goal)
    requires PendingRun(Next(s, a), sub, r, goal) && sub in Next(s, a).subs && sub !in s.inserting
    ensures PendingRun(s, sub, r, goal)
  {
    hide WorkerStep, Accurate, OnTheWay, Invariant;
    if a.Work? {
      WorkFrame(s, a.outcome);
      if OnTheWay(WorkerStep(s, a.outcome).pc, r, goal) {
        WayBack(s, a.outcome, r, goal);
      }
    } else if a.Dequeue? {
      LoadingOnly(s, r, goal);
    } else {
      ApiPendingBack(s, a, sub, r, goal);
    }
  }

  lemma ApiPendingBack(s: State, a: Action, sub: Id, r: Id, goal: SubStatus)
    requires Enabled(s, a) && !a.Work? && !a.Dequeue? && sub !in s.inserting
    requires PendingRun(Next(s, a), sub, r, goal)
    ensures PendingRun(s, sub, r, goal)
  {
    hide WorkerStep, OnTheWay;
  }

  lemma WayBack(s: State, o: Outcome, r: Id, goal: SubStatus)
    requires s.pc != Idle && OnTheWay(WorkerStep(s, o).pc, r, goal)
    ensures OnTheWay(s.pc, r, goal)
  {
  }

  lemma LoadingOnly(s: State, r: Id, goal: SubStatus)
    requires s.pc == Idle && s.queue != []
    ensures OnTheWay(Loading(s.queue[|s.queue| - 1]), r, goal) ==> r in s.queue
    ensures r in s.queue[..|s.queue| - 1] ==> r in s.queue
  {
  }

  // ---------- Deleting a running submission ----------

  /** Somewhere on the run the submission's row goes while its status is running. */
  predicate DeletesRunning(s: State, acts: seq<Action>, sub: Id)
    requires Feasible(s, acts)
    decreases |acts|
  {
    acts != [] &&
    ((acts[0] == DeleteRow(sub) && sub in s.subs && s.subs[sub].SubRunning?)
     || DeletesRunning(Next(s, acts[0]), acts[1..], sub))
  }

  /** Every check of this submission is directly followed by its deletion. */
  predicate Atomic(acts: seq<Action>, sub: Id) {
    forall i :: 0 <= i < |acts| && acts[i] == DeleteCheck(sub) ==> i + 1 < |acts| && acts[i + 1] == DeleteRow(sub)
  }

  lemma StepDeleting(s: State, a: Action, sub: Id)
    requires Enabled(s, a)
    ensures Next(s, a).deleting[sub]
            == if a == DeleteCheck(sub) then s.deleting[sub] + 1
               else if a == DeleteRow(sub) then s.deleting[sub] - 1
               else s.deleting[sub]
  {
    hide WorkerStep;
    if a.Work? {
      WorkLeavesRequests(s, a.outcome);
    }
  }

  /** Were check and deletion one step, no running submission would be deleted, whatever else
      happens and whatever fails. */
  lemma {:induction false} AtomicDeletionSpares(s: State, acts: seq<Action>, sub: Id)
    requires sub !in s.deleting && Feasible(s, acts) && Atomic(acts, sub)
    ensures !DeletesRunning(s, acts, sub)
    decreases |acts|
  {
    hide Next;
    if acts != [] {
      var a, rest := acts[0], acts[1..];
      StepDeleting(s, a, sub);
      AtomicTail(acts, sub);
      if a == DeleteCheck(sub) {
        var n := Next(s, a);
        assert rest[0] == DeleteRow(sub);
        CheckChangesNothing(s, sub);
        StepDeleting(n, rest[0], sub);
        AtomicTail(rest, sub);
        AtomicDeletionSpares(Next(n, rest[0]), rest[1..], sub);
      } else {
        AtomicDeletionSpares(Next(s, a), rest, sub);
      }
    }
  }

  lemma CheckChangesNothing(s: State, sub: Id)
    requires Enabled(s, DeleteCheck(sub))
    ensures Next(s, DeleteCheck(sub)).subs == s.subs && !s.subs[sub].SubRunning?
  {
  }

  lemma AtomicTail(acts: seq<Action>, sub: Id)
    requires acts != [] && Atomic(acts, sub)
    ensures Atomic(acts[1..], sub)
  {
    forall i | 0 <= i < |acts| - 1 && acts[1..][i] == DeleteCheck(sub)
      ensures i + 1 < |acts| - 1 && acts[1..][i + 1] == DeleteRow(sub)
    {
      assert acts[i + 1] == DeleteCheck(sub);
    }
  }

  /** The submission runs, or still can: a run of it may be triggered or is pending. */
  ghost predicate CanRun(s: State, sub: Id) {
    sub in s.subs && (s.subs[sub].SubRunning? || Runnable(s.subs[sub]) || Pending(s, sub, SubRunning))
  }

  /** Some run from here on, without a further check, deletes the submission while it runs. */
  ghost predicate MayDeleteRunning(s: State, sub: Id) {
    exists acts :: Feasible(s, acts) && Reliable(s, acts) && DeleteCheck(sub) !in acts && DeletesRunning(s, acts, sub)
  }

  lemma WorkMakesRunnable(s: State, o: Outcome, sub: Id)
    requires Sound(s) && s.pc != Idle && Dependable(s.pc, o) && sub in s.subs
    requires var status := WorkerStep(s, o).subs[sub]; status.SubRunning? || Runnable(status)
    ensures CanRun(s, sub)
  {
    hide Accurate, Invariant;
    WorkFrame(s, o);
    var n := WorkerStep(s, o);
    if n.subs[sub] != s.subs[sub] {
      WritesOwnSub(s, o, sub);
      if s.pc.stage.MarkSubRunning? {
        assert PendingRun(s, sub, s.pc.run, SubRunning);
      }
    }
  }

  /** The worker changes no submission's status but its own, and to running or completed only
      from the stages that do. */
  lemma WritesOwnSub(s: State, o: Outcome, sub: Id)
    requires Sound(s) && s.pc != Idle && Dependable(s.pc, o) && sub in s.subs
    requires WorkerStep(s, o).subs.Keys == s.subs.Keys
    requires var status := WorkerStep(s, o).subs[sub]; status != s.subs[sub] && (status.SubRunning? || Runnable(status))
    ensures s.pc.At? && s.pc.sub == sub && (s.pc.stage.MarkSubRunning? || s.pc.stage.MarkSubCompleted?)
    ensures s.pc.run in s.runs && s.runs[s.pc.run].sub == sub
    ensures s.pc.stage.MarkSubCompleted? ==> s.subs[sub].SubRunning?
  {
  }

  lemma CanRunBack(s: State, a: Action, sub: Id)
    requires Sound(s) && Enabled(s, a) && (a.Work? ==> Dependable(s.pc, a.outcome)) && sub in s.everSubs
    requires CanRun(Next(s, a), sub)
    ensures CanRun(s, sub)
  {
    hide WorkerStep, Pending, Accurate, Invariant;
    var n := Next(s, a);
    if a.Work? {
      WorkFrame(s, a.outcome);
      if n.subs[sub].SubRunning? || Runnable(n.subs[sub]) {
        WorkMakesRunnable(s, a.outcome, sub);
      } else {
        PendingBack(s, a, sub, SubRunning);
      }
    } else {
      ApiKeepsStatus(s, a, sub);
      if !(n.subs[sub].SubRunning? || Runnable(n.subs[sub])) {
        PendingBack(s, a, sub, SubRunning);
      }
    }
  }

  lemma ApiKeepsStatus(s: State, a: Action, sub: Id)
    requires Enabled(s, a) && !a.Work? && sub in s.everSubs && sub in Next(s, a).subs
    ensures sub in s.subs && Next(s, a).subs[sub] == s.subs[sub]
  {
  }

  lemma EverStays(s: State, a: Action, sub: Id)
    requires Enabled(s, a) && sub in s.everSubs
    ensures sub in Next(s, a).everSubs
  {
    hide WorkerStep;
    if a.Work? {
      WorkFrame(s, a.outcome);
    }
  }

  lemma {:induction false} DeletionNeeds(s: State, acts: seq<Action>, sub: Id)
    requires Sound(s) && sub in s.everSubs && Feasible(s, acts) && Reliable(s, acts) && DeleteCheck(sub) !in acts
    requires DeletesRunning(s, acts, sub)
    ensures sub in s.deleting && CanRun(s, sub)
    decreases |acts|
  {
    hide Sound, Next, CanRun, Dependable, Enabled;
    if acts[0] == DeleteRow(sub) && sub in s.subs && s.subs[sub].SubRunning? {
      DeletedHere(s, sub);
    } else {
      var n := Next(s, acts[0]);
      StepSound(s, acts[0]);
      EverStays(s, acts[0], sub);
      DeletionNeeds(n, acts[1..], sub);
      CanRunBack(s, acts[0], sub);
      StepDeleting(s, acts[0], sub);
    }
  }

  lemma DeletedHere(s: State, sub: Id)
    requires Enabled(s, DeleteRow(sub)) && sub in s.subs && s.subs[sub].SubRunning?
    ensures sub in s.deleting && CanRun(s, sub)
  {
  }

  lemma {:induction false} DeletesAtEnd(s: State, acts: seq<Action>, sub: Id)
    requires Feasible(s, acts) && Reliable(s, acts) && sub in After(s, acts).deleting
    requires sub in After(s, acts).subs && After(s, acts).subs[sub].SubRunning?
    ensures var all := acts + [DeleteRow(sub)];
            Feasible(s, all) && Reliable(s, all) && DeletesRunning(s, all, sub)
    decreases |acts|
  {
    hide Next, Dependable;
    var all := acts + [DeleteRow(sub)];
    if acts == [] {
      assert all[1..] == [];
      RowEnabled(s, sub);
    } else {
      DeletesAtEnd(Next(s, acts[0]), acts[1..], sub);
      assert all[1..] == acts[1..] + [DeleteRow(sub)];
    }
  }

  lemma RowEnabled(s: State, sub: Id)
    requires sub in s.deleting
    ensures Enabled(s, DeleteRow(sub))
  {
  }

  lemma ReachRunning(s: State, sub: Id) returns (acts: seq<Action>)
    requires Sound(s) && CanRun(s, sub)
    ensures Gets(s, acts, sub, SubRunning)
  {
    hide Gets, Pending, Sound, Feasible, Reliable, After;
    if s.subs[sub].SubRunning? {
      acts := [];
      NothingLeft(s);
      NothingGets(s, sub, SubRunning);
    } else if Pending(s, sub, SubRunning) {
      acts := ReachFromPending(s, sub, SubRunning);
    } else {
      var a := TriggerCheck(sub);
      StepSound(s, a);
      var n := Next(s, a);
      var rest := ReachFromInserting(n, sub, SubRunning);
      GetsOnward(s, a, rest, sub, SubRunning);
      acts := [a] + rest;
    }
  }

  lemma NothingGets(s: State, sub: Id, goal: SubStatus)
    requires sub in s.subs && s.subs[sub] == goal
    ensures Gets(s, [], sub, goal)
  {
  }

  lemma QuietNoCheck(acts: seq<Action>, sub: Id)
    requires Quiet(acts)
    ensures DeleteCheck(sub) !in acts + [DeleteRow(sub)]
  {
  }

  lemma MayDeleteIff(s: State, sub: Id)
    requires Sound(s)
    ensures MayDeleteRunning(s, sub) <==> sub in s.deleting && CanRun(s, sub)
  {
    hide Feasible, Reliable, After, CanRun, DeletesRunning;
    if sub in s.deleting && CanRun(s, sub) {
      var acts := ReachRunning(s, sub);
      DeletesAtEnd(s, acts, sub);
      QuietNoCheck(acts, sub);
    }
    if MayDeleteRunning(s, sub) {
      var acts :| Feasible(s, acts) && Reliable(s, acts) && DeleteCheck(sub) !in acts && DeletesRunning(s, acts, sub);
      DeletableEver(s, acts, sub);
      DeletionNeeds(s, acts, sub);
    }
  }

  /** Only a submission that is being deleted, or exists, or is created on the way, can be. */
  lemma DeletableEver(s: State, acts: seq<Action>, sub: Id)
    requires Sound(s) && Feasible(s, acts) && DeleteCheck(sub) !in acts && DeletesRunning(s, acts, sub)
    ensures sub in s.everSubs
  {
    NeverDeleted(s, acts, sub);
  }

  lemma {:induction false} NeverDeleted(s: State, acts: seq<Action>, sub: Id)
    requires Feasible(s, acts) && DeleteCheck(sub) !in acts && DeletesRunning(s, acts, sub)
    ensures sub in s.deleting
    decreases |acts|
  {
    hide Next;
    StepDeleting(s, acts[0], sub);
    if !(acts[0] == DeleteRow(sub) && sub in s.subs && s.subs[sub].SubRunning?) {
      NeverDeleted(Next(s, acts[0]), acts[1..], sub);
    }
  }

  /** From any state a reliable run reaches, and with no further check of the submission, it may
      be deleted while running if and only if a deletion of it is past its check and it runs or
      still can. */
  lemma DeletionHitsRunningIff(s0: State, past: seq<Action>, sub: Id)
    requires Initial(s0) && Feasible(s0, past) && Reliable(s0, past)
    ensures var s := After(s0, past); MayDeleteRunning(s, sub) <==> sub in s.deleting && CanRun(s, sub)
  {
    hide Sound;
    InitialSound(s0);
    RunSound(s0, past);
    MayDeleteIff(After(s0, past), sub);
  }

  lemma DeletesOnward(s: State, a: Action, rest: seq<Action>, sub: Id)
    requires Enabled(s, a) && (a.Work? ==> Dependable(s.pc, a.outcome))
    requires Feasible(Next(s, a), rest) && Reliable(Next(s, a), rest) && DeletesRunning(Next(s, a), rest, sub)
    ensures Feasible(s, [a] + rest) && Reliable(s, [a] + rest) && DeletesRunning(s, [a] + rest, sub)
  {
    assert ([a] + rest)[1..] == rest;
  }

  /** It happens: a reliable run from the start that deletes a running submission. */
  lemma DeletedWhileRunning(s0: State) returns (acts: seq<Action>, sub: Id)
    requires Initial(s0)
    ensures Feasible(s0, acts) && Reliable(s0, acts) && DeletesRunning(s0, acts, sub)
  {
    hide Sound, Feasible, Reliable, After, DeletesRunning, Gets;
    sub := UnusedId(s0.everSubs);
    InitialSound(s0);
    StepSound(s0, Create(sub));
    var s1 := Next(s0, Create(sub));
    StepSound(s1, DeleteCheck(sub));
    var s2 := Next(s1, DeleteCheck(sub));
    var rest := ReachRunning(s2, sub);
    GetsRunning(s2, rest, sub);
    DeletesAtEnd(s2, rest, sub);
    DeletesOnward(s1, DeleteCheck(sub), rest + [DeleteRow(sub)], sub);
    DeletesOnward(s0, Create(sub), [DeleteCheck(sub)] + (rest + [DeleteRow(sub)]), sub);
    acts := [Create(sub)] + ([DeleteCheck(sub)] + (rest + [DeleteRow(sub)]));
  }

  lemma GetsRunning(s: State, acts: seq<Action>, sub: Id)
    requires Gets(s, acts, sub, SubRunning) && sub in s.deleting
    ensures Feasible(s, acts) && Reliable(s, acts) && sub in After(s, acts).deleting
    ensures sub in After(s, acts).subs && After(s, acts).subs[sub].SubRunning?
  {
  }

  // ---------- Building a failed submission again ----------

  /** Some run from here on leads to the submission being built. */
  ghost predicate MayBuild(s: State, sub: Id) {
    exists acts :: Builds(s, acts, sub)
  }

  ghost predicate Builds(s: State, acts: seq<Action>, sub: Id) {
    && Feasible(s, acts) && Reliable(s, acts)
    && sub in After(s, acts).subs && After(s, acts).subs[sub].Building?
  }

  /** Deleted, or failed with no run of it pending. */
  ghost predicate Dormant(s: State, sub: Id) {
    sub in s.everSubs && (sub in s.subs ==> s.subs[sub].SubFailed? && !Pending(s, sub, Building))
  }

  lemma WorkKeepsFailed(s: State, o: Outcome, sub: Id)
    requires Sound(s) && s.pc != Idle && Dependable(s.pc, o) && sub in s.subs && s.subs[sub].SubFailed?
    requires forall r :: !PendingRun(s, sub, r, Building)
    ensures WorkerStep(s, o).subs[sub].SubFailed?
  {
    if s.pc.At? && s.pc.sub == sub {
      assert !PendingRun(s, sub, s.pc.run, Building);
    }
  }

  lemma StepKeepsDormant(s: State, a: Action, sub: Id)
    requires Sound(s) && Enabled(s, a) && (a.Work? ==> Dependable(s.pc, a.outcome)) && Dormant(s, sub)
    ensures Dormant(Next(s, a), sub)
  {
    hide WorkerStep, Accurate, Invariant, PendingRun;
    var n := Next(s, a);
    EverStays(s, a, sub);
    if sub in n.subs {
      if a.Work? {
        WorkFrame(s, a.outcome);
        WorkKeepsFailed(s, a.outcome, sub);
      } else {
        ApiKeepsStatus(s, a, sub);
      }
      if Pending(n, sub, Building) {
        PendingBack(s, a, sub, Building);
      }
    }
  }

  lemma {:induction false} RunKeepsDormant(s: State, acts: seq<Action>, sub: Id)
    requires Sound(s) && Feasible(s, acts) && Reliable(s, acts) && Dormant(s, sub)
    ensures Dormant(After(s, acts), sub)
    decreases |acts|
  {
    hide Sound, Next, Dormant, Enabled, Dependable;
    if acts != [] {
      StepSound(s, acts[0]);
      StepKeepsDormant(s, acts[0], sub);
      RunKeepsDormant(Next(s, acts[0]), acts[1..], sub);
    }
  }

  /** From any state a reliable run reaches, a failed submission may be built again if and only
      if a run of it is being inserted, waits to be pushed, is queued, or is being taken. */
  lemma FailedIsRebuiltIff(s0: State, past: seq<Action>, sub: Id)
    requires Initial(s0) && Feasible(s0, past) && Reliable(s0, past)
    requires var s := After(s0, past); sub in s.subs && s.subs[sub].SubFailed?
    ensures var s := After(s0, past); MayBuild(s, sub) <==> Pending(s, sub, Building)
  {
    hide Sound, Gets, Pending;
    InitialSound(s0);
    RunSound(s0, past);
    var s := After(s0, past);
    if Pending(s, sub, Building) {
      var acts := ReachFromPending(s, sub, Building);
      GetsBuilt(s, acts, sub);
    } else if MayBuild(s, sub) {
      var acts :| Builds(s, acts, sub);
      EverHas(s, sub);
      RunKeepsDormant(s, acts, sub);
    }
  }

  lemma GetsBuilt(s: State, acts: seq<Action>, sub: Id)
    requires Gets(s, acts, sub, Building)
    ensures MayBuild(s, sub)
  {
    assert Builds(s, acts, sub);
  }

  lemma EverHas(s: State, sub: Id)
    requires Sound(s) && sub in s.subs
    ensures sub in s.everSubs
  {
  }

  /** The worker loads the run, marks both rows, fails to build, and marks both failed. */
  function BuildFailure(): seq<Action> {
    var w := Work(Succeeds);
    [w] + ([w] + ([w] + ([w] + ([Work(Errs)] + ([w] + ([w] + ([w] + [])))))))
  }

  /** The worker's next call succeeds. */
  function Worked(s: State): State {
    if s.pc == Idle then s else WorkerStep(s, Succeeds)
  }

  lemma WorkedOnward(s: State, rest: seq<Action>)
    requires s.pc != Idle && Feasible(Worked(s), rest) && Reliable(Worked(s), rest)
    ensures var acts := [Work(Succeeds)] + rest;
            Feasible(s, acts) && Reliable(s, acts) && After(s, acts) == After(Worked(s), rest)
  {
    SuccessDependable(s.pc);
    Onward(s, Work(Succeeds), rest);
  }

  /** From taking a run to its build. */
  lemma ReachesBuild(s: State, r: Id, sub: Id)
    requires s.pc == Loading(r) && r in s.runs && s.runs[r].sub == sub && sub in s.subs
    ensures var n := Worked(Worked(Worked(Worked(s))));
            && n.pc == At(Build, r, sub) && n.queue == s.queue && n.runs.Keys == s.runs.Keys
            && (forall q :: q in s.runs ==> n.runs[q].sub == s.runs[q].sub) && sub in n.subs
    ensures Worked(s).pc != Idle && Worked(Worked(s)).pc != Idle && Worked(Worked(Worked(s))).pc != Idle
  {
    var s1 := Worked(s);
    assert s1.pc == LoadingSub(r, sub);
    var s2 := Worked(s1);
    assert s2.pc == At(MarkRunning, r, sub);
    var s3 := Worked(s2);
    assert s3.pc == At(MarkBuilding, r, sub);
  }

  /** From a build that errs to the submission marked failed. */
  lemma ReachesFailed(s: State, r: Id, sub: Id)
    requires s.pc == At(Build, r, sub) && r in s.runs && s.runs[r].sub == sub && sub in s.subs
    ensures var f := WorkerStep(s, Errs);
            var n := Worked(Worked(Worked(f)));
            && f.pc != Idle && Worked(f).pc != Idle && Worked(Worked(f)).pc != Idle
            && sub in n.subs && n.subs[sub].SubFailed? && n.queue == s.queue && n.runs.Keys == s.runs.Keys
            && (forall q :: q in s.runs ==> n.runs[q].sub == s.runs[q].sub)
  {
    var f := WorkerStep(s, Errs);
    assert f.pc == FailMark(r);
    var f1 := Worked(f);
    assert f1.pc == FailLookup(r);
    var f2 := Worked(f1);
    assert f2.pc == FailSub(r, sub);
  }

  lemma BuildFails(s: State, r: Id, sub: Id)
    requires s.pc == Loading(r) && r in s.runs && s.runs[r].sub == sub && sub in s.subs
    ensures Feasible(s, BuildFailure()) && Reliable(s, BuildFailure())
    ensures var n := After(s, BuildFailure());
            && sub in n.subs && n.subs[sub].SubFailed? && n.queue == s.queue && n.runs.Keys == s.runs.Keys
            && (forall q :: q in s.runs ==> n.runs[q].sub == s.runs[q].sub)
  {
    hide Feasible, Reliable, After, Worked, WorkerStep;
    var w := Work(Succeeds);
    var s1, s2, s3 := Worked(s), Worked(Worked(s)), Worked(Worked(Worked(s)));
    ReachesBuild(s, r, sub);
    var b := Worked(s3);
    ReachesFailed(b, r, sub);
    var f := WorkerStep(b, Errs);
    var f1, f2 := Worked(f), Worked(Worked(f));
    NothingLeft(Worked(f2));
    WorkedOnward(f2, []);
    WorkedOnward(f1, [w] + []);
    WorkedOnward(f, [w] + ([w] + []));
    Onward(b, Work(Errs), [w] + ([w] + ([w] + [])));
    WorkedOnward(s3, [Work(Errs)] + ([w] + ([w] + ([w] + []))));
    WorkedOnward(s2, [w] + ([Work(Errs)] + ([w] + ([w] + ([w] + [])))));
    WorkedOnward(s1, [w] + ([w] + ([Work(Errs)] + ([w] + ([w] + ([w] + []))))));
    WorkedOnward(s, [w] + ([w] + ([w] + ([Work(Errs)] + ([w] + ([w] + ([w] + [])))))));
  }

  /** Two runs of one new submission, both in the queue, and the first taken. */
  ghost predicate TwoQueued(s: State, sub: Id, r0: Id, r1: Id) {
    && s.pc == Loading(r0) && sub in s.subs && s.queue == [r1] && r0 in s.runs && r1 in s.runs
    && s.runs[r0].sub == s.runs[r1].sub == sub
  }

  /** Both inserted, neither pushed. */
  ghost predicate TwoInserted(s: State, sub: Id, r0: Id, r1: Id) {
    && s.pc == Idle && sub in s.subs && s.queue == [] && r0 in s.runs && r1 in s.runs && r0 != r1
    && s.runs[r0].sub == s.runs[r1].sub == sub && r0 in s.enqueuing && r1 in s.enqueuing
  }

  lemma InsertTwo(s0: State, sub: Id, r0: Id, r1: Id) returns (acts: seq<Action>)
    requires Initial(s0) && sub !in s0.everSubs && r0 !in s0.everRuns && r1 !in s0.everRuns && r0 != r1
    ensures Feasible(s0, acts) && Reliable(s0, acts) && TwoInserted(After(s0, acts), sub, r0, r1)
  {
    hide Feasible, Reliable, After;
    var c, t := Create(sub), TriggerCheck(sub);
    var i0, i1 := TriggerInsert(sub, r0), TriggerInsert(sub, r1);
    var s1 := Next(s0, c);
    var s2 := Next(s1, t);
    var s3 := Next(s2, t);
    var s4 := Next(s3, i0);
    NothingLeft(Next(s4, i1));
    Onward(s4, i1, []);
    Onward(s3, i0, [i1] + []);
    Onward(s2, t, [i0] + ([i1] + []));
    Onward(s1, t, [t] + ([i0] + ([i1] + [])));
    Onward(s0, c, [t] + ([t] + ([i0] + ([i1] + []))));
    acts := [c] + ([t] + ([t] + ([i0] + ([i1] + []))));
  }

  lemma PushTwo(s: State, sub: Id, r0: Id, r1: Id) returns (acts: seq<Action>)
    requires TwoInserted(s, sub, r0, r1)
    ensures Feasible(s, acts) && Reliable(s, acts) && TwoQueued(After(s, acts), sub, r0, r1)
  {
    hide Feasible, Reliable, After;
    var s1 := Next(s, TriggerEnqueue(r0));
    assert s1.queue == [r0];
    var s2 := Next(s1, TriggerEnqueue(r1));
    assert s2.queue == [r1, r0];
    var n := Next(s2, Dequeue);
    assert n.queue == [r1];
    NothingLeft(n);
    Onward(s2, Dequeue, []);
    Onward(s1, TriggerEnqueue(r1), [Dequeue] + []);
    Onward(s, TriggerEnqueue(r0), [TriggerEnqueue(r1)] + ([Dequeue] + []));
    acts := [TriggerEnqueue(r0)] + ([TriggerEnqueue(r1)] + ([Dequeue] + []));
  }

  lemma {:induction false} RunsJoined(s: State, a: seq<Action>, b: seq<Action>)
    requires Feasible(s, a) && Reliable(s, a) && Feasible(After(s, a), b) && Reliable(After(s, a), b)
    ensures Feasible(s, a + b) && Reliable(s, a + b) && After(s, a + b) == After(After(s, a), b)
    decreases |a|
  {
    hide Next, Enabled, Dependable;
    if a == [] {
      assert a + b == b;
    } else {
      RunsJoined(Next(s, a[0]), a[1..], b);
      assert (a + b)[1..] == a[1..] + b;
    }
  }

  /** It happens: a reliable run from the start to a failed submission, and one from there on
      which it is built again. */
  lemma FailedThenBuilt(s0: State) returns (past: seq<Action>, sub: Id)
    requires Initial(s0)
    ensures Feasible(s0, past) && Reliable(s0, past)
    ensures var s := After(s0, past); sub in s.subs && s.subs[sub].SubFailed? && MayBuild(s, sub)
  {
    hide Feasible, Reliable, After, BuildFailure, MayBuild;
    sub := UnusedId(s0.everSubs);
    var r0 := UnusedId(s0.everRuns);
    var inserts := InsertTwo(s0, sub, r0, r0 + 1);
    var pushes := PushTwo(After(s0, inserts), sub, r0, r0 + 1);
    RunsJoined(s0, inserts, pushes);
    var n := After(s0, inserts + pushes);
    BuildFails(n, r0, sub);
    RunsJoined(s0, inserts + pushes, BuildFailure());
    past := inserts + pushes + BuildFailure();
    var s := After(s0, past);
    assert s.queue[0] == r0 + 1;
    assert PendingRun(s, sub, r0 + 1, Building);
    FailedIsRebuiltIff(s0, past, sub);
  }
}
