/** The worker as one program: the statements of processRun and of the loop around it, each
    call's outcome given, against the step-by-step worker of the lifecycle. */
module BenchmarkWorkers {
  import opened Lifecycle

  datatype Option<T> = None | Some(value: T)

  /** processRun has returned: without an error, or with one. */
  predicate Returned(pc: Pc) {
    pc == Idle || pc.Burying?
  }

  /** The worker's steps from here until processRun returns. A step is made at most once in a
      run, so outcomes go by the point at which they are asked for. */
  function Finished(s: State, env: Pc -> Outcome): State
    decreases Remaining(s.pc)
  {
    if Returned(s.pc) then s
    else
      WorkAdvances(s, env(s.pc));
      Finished(WorkerStep(s, env(s.pc)), env)
  }

  /** A call to the sandbox, fleet, ingester or scoring writes no row of these. */
  lemma Pass(s: State, env: Pc -> Outcome) returns (n: State)
    requires s.pc.At? && !WritesRow(s.pc.stage)
    ensures n.pc == StageExit(s.pc.stage, s.pc.run, s.pc.sub, env(s.pc))
    ensures n.effects == s.effects + StageEffects(s.pc.stage, env(s.pc))
    ensures n.runs == s.runs && n.subs == s.subs && Finished(n, env) == Finished(s, env)
  {
    n := WorkerStep(s, env(s.pc));
  }

  /** A status write leaves no trace. */
  lemma Write(s: State, env: Pc -> Outcome) returns (n: State)
    requires s.pc.At? && WritesRow(s.pc.stage)
    ensures n.pc == StageExit(s.pc.stage, s.pc.run, s.pc.sub, env(s.pc))
    ensures n.runs == StageRuns(s.runs, s.pc.stage, s.pc.run, env(s.pc))
    ensures n.subs == StageSubs(s.subs, s.pc.stage, s.pc.sub, env(s.pc))
    ensures n.effects == s.effects && Finished(n, env) == Finished(s, env)
  {
    n := WorkerStep(s, env(s.pc));
  }

  /** The same for failRun's statements, */
  lemma Fail(s: State, env: Pc -> Outcome) returns (n: State)
    requires s.pc.FailMark? || s.pc.FailLookup? || s.pc.FailSub?
    ensures n.runs == if s.pc.FailMark? && env(s.pc).Succeeds? then SetRun(s.runs, s.pc.run, RunFailed) else s.runs
    ensures n.subs == if s.pc.FailSub? && env(s.pc).Succeeds? then SetSub(s.subs, s.pc.sub, SubFailed) else s.subs
    ensures n.pc == if s.pc.FailMark? then FailLookup(s.pc.run)
                    else if s.pc.FailLookup? && env(s.pc).Succeeds? && s.pc.run in s.runs
                    then FailSub(s.pc.run, s.runs[s.pc.run].sub) else Burying(s.pc.run)
    ensures n.effects == s.effects && Finished(n, env) == Finished(s, env)
  {
    n := WorkerStep(s, env(s.pc));
  }

  /** and for loading the run and its submission. */
  lemma Load(s: State, env: Pc -> Outcome) returns (n: State)
    requires s.pc.Loading? || s.pc.LoadingSub?
    ensures n.pc == if !env(s.pc).Succeeds? then FailMark(s.pc.run)
                    else if s.pc.Loading? && s.pc.run in s.runs then LoadingSub(s.pc.run, s.runs[s.pc.run].sub)
                    else if s.pc.LoadingSub? && s.pc.sub in s.subs then At(MarkRunning, s.pc.run, s.pc.sub)
                    else FailMark(s.pc.run)
    ensures n.runs == s.runs && n.subs == s.subs && n.effects == s.effects && Finished(n, env) == Finished(s, env)
  {
    n := WorkerStep(s, env(s.pc));
  }

  lemma Stopped(s: State, env: Pc -> Outcome)
    requires Returned(s.pc)
    ensures Finished(s, env) == s
  {
  }

  lemma {:induction false} FinishedEffects(s: State, env: Pc -> Outcome)
    requires EffectsMatch(s)
    ensures EffectsMatch(Finished(s, env)) && Returned(Finished(s, env).pc)
    decreases Remaining(s.pc)
  {
    if !Returned(s.pc) {
      WorkAdvances(s, env(s.pc));
      WorkKeepsEffects(s, env(s.pc));
      FinishedEffects(WorkerStep(s, env(s.pc)), env);
    }
  }

  /** processRun leaves everything but rows, effects and its own position alone. */
  lemma {:induction false} FinishedKeepsRest(s: State, env: Pc -> Outcome)
    ensures var n := Finished(s, env);
            Returned(n.pc) && n == s.(subs := n.subs, runs := n.runs, effects := n.effects, pc := n.pc)
    decreases Remaining(s.pc)
  {
    if !Returned(s.pc) {
      WorkAdvances(s, env(s.pc));
      FinishedKeepsRest(WorkerStep(s, env(s.pc)), env);
    }
  }

  predicate Ok(env: Pc -> Outcome, pc: Pc) {
    env(pc).Succeeds?
  }

  lemma SetTwice(subs: map<Id, SubStatus>, runs: map<Id, Run>, id: Id)
    ensures forall a, b :: SetRun(SetRun(runs, id, a), id, b) == SetRun(runs, id, b)
    ensures forall a, b :: SetSub(SetSub(subs, id, a), id, b) == SetSub(subs, id, b)
  {
  }

  class BenchmarkWorker {
    var subs: map<Id, SubStatus>
    var runs: map<Id, Run>
    var queue: seq<Id>
    var dead: seq<Id>
    var effects: seq<Effect>

    /** The rows and effects of a lifecycle state are this worker's. */
    ghost predicate Agrees(s: State)
      reads this`subs, this`runs, this`effects
    {
      s.subs == subs && s.runs == runs && s.effects == effects
    }

    method UpdateRunStatus(r: Id, status: RunStatus, o: Outcome) returns (ok: bool)
      modifies this`runs
      ensures ok == o.Succeeds? && runs == if ok then SetRun(old(runs), r, status) else old(runs)
    {
      ok := o.Succeeds?;
      if ok && r in runs {
        runs := runs[r := runs[r].(status := status)];
      }
    }

    method UpdateSubmissionStatus(sub: Id, status: SubStatus, o: Outcome) returns (ok: bool)
      modifies this`subs
      ensures ok == o.Succeeds? && subs == if ok then SetSub(old(subs), sub, status) else old(subs)
    {
      ok := o.Succeeds?;
      if ok && sub in subs {
        subs := subs[sub := status];
      }
    }

    /** A call to the sandbox, fleet or ingester that leaves a trace. */
    method Perform(e: Effect)
      modifies this`effects
      ensures effects == old(effects) + [e]
    {
      effects := effects + [e];
    }

    method FailRun(r: Id, env: Pc -> Outcome, ghost s0: State)
      requires Agrees(s0) && s0.pc == FailMark(r)
      modifies this`subs, this`runs
      ensures Agrees(Finished(s0, env)) && Finished(s0, env).pc == Burying(r)
      ensures runs == if Ok(env, FailMark(r)) then SetRun(old(runs), r, RunFailed) else old(runs)
      ensures subs
              == if r in old(runs) && Ok(env, FailLookup(r)) && Ok(env, FailSub(r, old(runs)[r].sub))
                 then SetSub(old(subs), old(runs)[r].sub, SubFailed) else old(subs)
    {
      hide Finished;
      ghost var s := s0;
      var _ := UpdateRunStatus(r, RunFailed, env(FailMark(r)));
      s := Fail(s, env);
      if env(FailLookup(r)).Succeeds? && r in runs {
        var sub := runs[r].sub;
        s := Fail(s, env);
        var _ := UpdateSubmissionStatus(sub, SubFailed, env(FailSub(r, sub)));
        s := Fail(s, env);
      } else {
        s := Fail(s, env);
      }
      Stopped(s, env);
    }

    method LoadRunAndSubmission(r: Id, env: Pc -> Outcome, ghost s0: State)
      returns (found: bool, sub: Id, ghost s: State)
      requires Agrees(s0) && s0.pc == Loading(r)
      ensures Agrees(s) && Finished(s, env) == Finished(s0, env)
      ensures s.pc == if found then At(MarkRunning, r, sub) else FailMark(r)
      ensures found <==> Found(r, env, subs, runs)
      ensures found ==> runs[r].sub == sub
    {
      hide Finished;
      s := Load(s0, env);
      if !env(Loading(r)).Succeeds? || r !in runs {
        return false, 0, s;
      }
      sub := runs[r].sub;
      s := Load(s, env);
      found := env(LoadingSub(r, sub)).Succeeds? && sub in subs;
    }

    /** Loading, the first two marks, the build and the launch give up on an error, as the rest
        does where RunInSandbox says; a run given up is marked failed, and its submission, unless
        it was a mark that failed. */
    method ProcessRun(r: Id, env: Pc -> Outcome, ghost s0: State) returns (err: bool)
      requires Agrees(s0) && s0.pc == Loading(r)
      modifies this`subs, this`runs, this`effects
      ensures Agrees(Finished(s0, env)) && Finished(s0, env).pc == if err then Burying(r) else Idle
      ensures !err <==>
                && Found(r, env, old(subs), old(runs))
                && var sub := old(runs)[r].sub;
                && Ok(env, At(MarkRunning, r, sub)) && Ok(env, At(MarkBuilding, r, sub))
                && Ok(env, At(Build, r, sub)) && Ok(env, At(Launch, r, sub)) && Ok(env, At(AwaitHealth, r, sub))
                && Ok(env, At(StartFleet, r, sub)) && !env(At(Benchmark, r, sub)).ShutsDown?
      ensures !err ==>
                var sub := old(runs)[r].sub;
                && runs == SetRun(old(runs), r, if Ok(env, At(MarkCompleted, r, sub)) then RunCompleted else RunRunning)
                && subs == SetSub(old(subs), sub,
                                  if Ok(env, At(MarkSubCompleted, r, sub)) then SubCompleted
                                  else if Ok(env, At(MarkSubRunning, r, sub)) then SubRunning else Building)
      ensures !Found(r, env, old(subs), old(runs)) ==>
                FailedWith(r, env, old(subs), old(runs)) && effects == old(effects)
      ensures Found(r, env, old(subs), old(runs)) ==>
                var sub := old(runs)[r].sub;
                var marked, building := SetRun(old(runs), r, RunRunning), SetSub(old(subs), sub, Building);
                if !Ok(env, At(MarkRunning, r, sub)) then
                  runs == old(runs) && subs == old(subs) && effects == old(effects)
                else if !Ok(env, At(MarkBuilding, r, sub)) then
                  runs == marked && subs == old(subs) && effects == old(effects)
                else GivesUp(r, sub, env, building, marked, old(effects))
    {
      hide Finished, GivesUp;
      ghost var s;
      var found, sub;
      found, sub, s := LoadRunAndSubmission(r, env, s0);
      if !found {
        FailRun(r, env, s);
        return true;
      }
      var ok := UpdateRunStatus(r, RunRunning, env(At(MarkRunning, r, sub)));
      s := Write(s, env);
      if !ok {
        Stopped(s, env);
        return true;
      }
      ok := UpdateSubmissionStatus(sub, Building, env(At(MarkBuilding, r, sub)));
      s := Write(s, env);
      if !ok {
        Stopped(s, env);
        return true;
      }
      err := BuildAndRun(r, sub, env, s);
      SetTwice(old(subs), old(runs), sub);
      SetTwice(old(subs), old(runs), r);
    }

    /** The rest of processRun, with both rows marked. */
    method BuildAndRun(r: Id, sub: Id, env: Pc -> Outcome, ghost s0: State) returns (err: bool)
      requires Agrees(s0) && s0.pc == At(Build, r, sub)
      modifies this`subs, this`runs, this`effects
      ensures Agrees(Finished(s0, env)) && Finished(s0, env).pc == if err then Burying(r) else Idle
      ensures !err <==>
                Ok(env, At(Build, r, sub)) && Ok(env, At(Launch, r, sub)) && Ok(env, At(AwaitHealth, r, sub))
                && Ok(env, At(StartFleet, r, sub)) && !env(At(Benchmark, r, sub)).ShutsDown?
      ensures !err ==> Completes(r, sub, env, old(subs), old(runs))
      ensures GivesUp(r, sub, env, old(subs), old(runs), old(effects))
    {
      hide Finished;
      ghost var s := s0;
      s := Pass(s, env);
      if !env(At(Build, r, sub)).Succeeds? {
        FailRun(r, env, s);
        return true;
      }
      if !env(At(Launch, r, sub)).Succeeds? {
        s := Pass(s, env);
        FailRun(r, env, s);
        return true;
      }
      Perform(Launched);
      s := Pass(s, env);
      err := RunInSandbox(r, sub, env, s);
    }

    /** Run and submission are there and get loaded. */
    ghost predicate Found(r: Id, env: Pc -> Outcome, oldSubs: map<Id, SubStatus>, oldRuns: map<Id, Run>) {
      r in oldRuns && oldRuns[r].sub in oldSubs && Ok(env, Loading(r)) && Ok(env, LoadingSub(r, oldRuns[r].sub))
    }

    /** What is left at each point from the build on at which processRun may give up. */
    ghost predicate GivesUp(r: Id, sub: Id, env: Pc -> Outcome, oldSubs: map<Id, SubStatus>, oldRuns: map<Id, Run>,
                            oldEffects: seq<Effect>)
      reads this`subs, this`runs, this`effects
    {
      if !Ok(env, At(Build, r, sub)) || !Ok(env, At(Launch, r, sub)) then
        FailedWith(r, env, oldSubs, oldRuns) && effects == oldEffects
      else GivesUpInSandbox(r, sub, env, oldSubs, oldRuns, oldEffects + [Launched])
    }

    /** The same with the container up. A shutdown marks nothing. */
    ghost predicate GivesUpInSandbox(r: Id, sub: Id, env: Pc -> Outcome, oldSubs: map<Id, SubStatus>,
                                     oldRuns: map<Id, Run>, oldEffects: seq<Effect>)
      reads this`subs, this`runs, this`effects
    {
      var running := if Ok(env, At(MarkSubRunning, r, sub)) then SetSub(oldSubs, sub, SubRunning) else oldSubs;
      if !Ok(env, At(AwaitHealth, r, sub)) then
        FailedWith(r, env, oldSubs, oldRuns) && effects == oldEffects + [TornDown]
      else if !Ok(env, At(StartFleet, r, sub)) then
        FailedWith(r, env, running, oldRuns) && effects == oldEffects + [TornDown]
      else
        && effects == oldEffects + [FleetStarted] + [FleetStopped] + [IngesterStopped] + [TornDown]
        && (env(At(Benchmark, r, sub)).ShutsDown? ==> runs == oldRuns && subs == running)
    }

    /** The rows as failRun leaves them, from what they were. */
    ghost predicate FailedWith(r: Id, env: Pc -> Outcome, oldSubs: map<Id, SubStatus>, oldRuns: map<Id, Run>)
      reads this`subs, this`runs
    {
      && runs == (if Ok(env, FailMark(r)) then SetRun(oldRuns, r, RunFailed) else oldRuns)
      && subs == if r in oldRuns && Ok(env, FailLookup(r)) && Ok(env, FailSub(r, oldRuns[r].sub))
                 then SetSub(oldSubs, oldRuns[r].sub, SubFailed) else oldSubs
    }

    /** The rows after a benchmark that came to its end, from what they were when it was built. */
    ghost predicate Completes(r: Id, sub: Id, env: Pc -> Outcome, oldSubs: map<Id, SubStatus>, oldRuns: map<Id, Run>)
      reads this`subs, this`runs
    {
      && runs == (if Ok(env, At(MarkCompleted, r, sub)) then SetRun(oldRuns, r, RunCompleted) else oldRuns)
      && subs == if Ok(env, At(MarkSubCompleted, r, sub)) then SetSub(oldSubs, sub, SubCompleted)
                 else if Ok(env, At(MarkSubRunning, r, sub)) then SetSub(oldSubs, sub, SubRunning) else oldSubs
    }

    /** The rest of processRun, with the container up: it gives up if the container does not
        become healthy, the fleet does not start, or the service shuts down. */
    method RunInSandbox(r: Id, sub: Id, env: Pc -> Outcome, ghost s0: State) returns (err: bool)
      requires Agrees(s0) && s0.pc == At(AwaitHealth, r, sub)
      modifies this`subs, this`runs, this`effects
      ensures Agrees(Finished(s0, env)) && Finished(s0, env).pc == if err then Burying(r) else Idle
      ensures !err <==>
                Ok(env, At(AwaitHealth, r, sub)) && Ok(env, At(StartFleet, r, sub))
                && !env(At(Benchmark, r, sub)).ShutsDown?
      ensures !err ==> Completes(r, sub, env, old(subs), old(runs))
      ensures GivesUpInSandbox(r, sub, env, old(subs), old(runs), old(effects))
    {
      hide Finished;
      ghost var s := s0;
      s := Pass(s, env);
      if !env(At(AwaitHealth, r, sub)).Succeeds? {
        Perform(TornDown);
        s := Pass(s, env);
        FailRun(r, env, s);
        return true;
      }
      err := RunFleet(r, sub, env, s);
    }

    /** The rest of processRun, with the container healthy. */
    method RunFleet(r: Id, sub: Id, env: Pc -> Outcome, ghost s0: State) returns (err: bool)
      requires Agrees(s0) && s0.pc == At(MarkSubRunning, r, sub)
      modifies this`subs, this`runs, this`effects
      ensures Agrees(Finished(s0, env)) && Finished(s0, env).pc == if err then Burying(r) else Idle
      ensures !err <==> Ok(env, At(StartFleet, r, sub)) && !env(At(Benchmark, r, sub)).ShutsDown?
      ensures !err ==> Completes(r, sub, env, old(subs), old(runs))
      ensures Ok(env, At(AwaitHealth, r, sub)) ==>
                GivesUpInSandbox(r, sub, env, old(subs), old(runs), old(effects))
    {
      hide Finished;
      ghost var s := s0;
      ghost var before := subs;
      var _ := UpdateSubmissionStatus(sub, SubRunning, env(At(MarkSubRunning, r, sub)));
      s := Write(s, env);
      if !env(At(StartFleet, r, sub)).Succeeds? {
        s := Pass(s, env);
        Perform(TornDown);
        s := Pass(s, env);
        FailRun(r, env, s);
        return true;
      }
      Perform(FleetStarted);
      s := Pass(s, env);
      err := AwaitWindow(r, sub, env, s);
      SetTwice(before, runs, sub);
    }

    /** The select on the end of the benchmark window and the service's shutdown. */
    method AwaitWindow(r: Id, sub: Id, env: Pc -> Outcome, ghost s0: State) returns (err: bool)
      requires Agrees(s0) && s0.pc == At(Benchmark, r, sub)
      modifies this`subs, this`runs, this`effects
      ensures Agrees(Finished(s0, env)) && Finished(s0, env).pc == if err then Burying(r) else Idle
      ensures err <==> env(At(Benchmark, r, sub)).ShutsDown?
      ensures effects == old(effects) + [FleetStopped] + [IngesterStopped] + [TornDown]
      ensures runs == if !err && Ok(env, At(MarkCompleted, r, sub)) then SetRun(old(runs), r, RunCompleted) else old(runs)
      ensures subs
              == if !err && Ok(env, At(MarkSubCompleted, r, sub)) then SetSub(old(subs), sub, SubCompleted) else old(subs)
    {
      hide Finished;
      ghost var s := s0;
      if env(At(Benchmark, r, sub)).ShutsDown? {
        s := Pass(s, env);
        Abandon(r, sub, env, s);
        return true;
      }
      s := Pass(s, env);
      Conclude(r, sub, env, s);
      return false;
    }

    /** The service shuts down while the benchmark runs. */
    method Abandon(r: Id, sub: Id, env: Pc -> Outcome, ghost s0: State)
      requires Agrees(s0) && s0.pc == At(ShutFleet, r, sub)
      modifies this`effects
      ensures Agrees(Finished(s0, env)) && Finished(s0, env).pc == Burying(r)
      ensures effects == old(effects) + [FleetStopped] + [IngesterStopped] + [TornDown]
    {
      hide Finished;
      ghost var s := s0;
      Perform(FleetStopped);
      s := Pass(s, env);
      Perform(IngesterStopped);
      s := Pass(s, env);
      Perform(TornDown);
      s := Pass(s, env);
      Stopped(s, env);
    }

    /** The benchmark window is over. */
    method Conclude(r: Id, sub: Id, env: Pc -> Outcome, ghost s0: State)
      requires Agrees(s0) && s0.pc == At(StopFleet, r, sub)
      modifies this`subs, this`runs, this`effects
      ensures Agrees(Finished(s0, env)) && Finished(s0, env).pc == Idle
      ensures effects == old(effects) + [FleetStopped] + [IngesterStopped] + [TornDown]
      ensures runs == if Ok(env, At(MarkCompleted, r, sub)) then SetRun(old(runs), r, RunCompleted) else old(runs)
      ensures subs == if Ok(env, At(MarkSubCompleted, r, sub)) then SetSub(old(subs), sub, SubCompleted) else old(subs)
    {
      hide Finished;
      ghost var s := s0;
      Perform(FleetStopped);
      s := Pass(s, env);
      Perform(IngesterStopped);
      s := Pass(s, env);
      s := Pass(s, env);  // scoring: an error is only logged
      Perform(TornDown);
      s := Pass(s, env);
      CompleteRun(r, sub, env, s);
    }

    method CompleteRun(r: Id, sub: Id, env: Pc -> Outcome, ghost s0: State)
      requires Agrees(s0) && s0.pc == At(MarkCompleted, r, sub)
      modifies this`subs, this`runs
      ensures Agrees(Finished(s0, env)) && Finished(s0, env).pc == Idle
      ensures runs == if Ok(env, At(MarkCompleted, r, sub)) then SetRun(old(runs), r, RunCompleted) else old(runs)
      ensures subs == if Ok(env, At(MarkSubCompleted, r, sub)) then SetSub(old(subs), sub, SubCompleted) else old(subs)
    {
      hide Finished;
      ghost var s := s0;
      var _ := UpdateRunStatus(r, RunCompleted, env(At(MarkCompleted, r, sub)));
      s := Write(s, env);
      var _ := UpdateSubmissionStatus(sub, SubCompleted, env(At(MarkSubCompleted, r, sub)));
      s := Write(s, env);
      Stopped(s, env);
    }

    /** What the lifecycle makes of this worker's state, the rest as in s. */
    ghost function Within(s: State, pc: Pc): State
      reads this
    {
      s.(subs := subs, runs := runs, queue := queue, dead := dead, effects := effects, pc := pc)
    }

    /** BRPOP: the oldest run is at the right end; an empty list times out. */
    method DequeueRun() returns (taken: Option<Id>)
      modifies this`queue
      ensures match taken
              case None => old(queue) == queue == []
              case Some(r) => old(queue) == queue + [r]
    {
      if queue == [] {
        return None;
      }
      taken := Some(queue[|queue| - 1]);
      queue := queue[..|queue| - 1];
    }

    method MoveToDeadLetter(r: Id, o: Outcome)
      modifies this`dead
      ensures dead == if o.Succeeds? then [r] + old(dead) else old(dead)
    {
      if o.Succeeds? {
        dead := [r] + dead;
      }
    }

    /** One turn of the worker's loop: with nothing queued, nothing happens. Otherwise the oldest
        run is taken and processed, and goes to the dead letters if that gave an error;
        everything launched or started is cleaned up. */
    method Turn(env: Pc -> Outcome, ghost s: State) returns (taken: Option<Id>, err: bool)
      requires s == Within(s, Idle)
      modifies this
      ensures taken.None? <==> old(queue) == []
      ensures taken.None? ==> Within(s, Idle) == s && !err
      ensures taken.Some? ==>
                var returned := Finished(Next(s, Dequeue), env);
                && old(queue) == queue + [taken.value] && Settled(effects) && (err <==> returned.pc != Idle)
                && Within(s, Idle).(dequeued := s.dequeued + [taken.value])
                   == if err then WorkerStep(returned, env(Burying(taken.value))) else returned
    {
      taken := DequeueRun();
      err := false;
      if taken.Some? {
        var r := taken.value;
        effects := [];
        ghost var begun := Next(s, Dequeue);
        err := ProcessRun(r, env, begun);
        FinishedEffects(begun, env);
        FinishedKeepsRest(begun, env);
        if err {
          MoveToDeadLetter(r, env(Burying(r)));
        }
      }
    }
  }
}
