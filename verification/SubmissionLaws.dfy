/** What status a submission has, told from its runs: pending until one is taken, and once the
    worker is done with one, completed or failed as that run is. */
module SubmissionLaws {
  import opened Lifecycle

  /** Of the runs of this submission, this is the one that was taken last. */
  ghost predicate LastTaken(s: State, sub: Id, i: int) {
    && 0 <= i < |s.dequeued| && s.dequeued[i] in s.runs && s.runs[s.dequeued[i]].sub == sub
    && (forall j :: i < j < |s.dequeued| && s.dequeued[j] in s.runs ==> s.runs[s.dequeued[j]].sub != sub)
  }

  ghost predicate NoneTaken(s: State, sub: Id) {
    forall j :: 0 <= j < |s.dequeued| && s.dequeued[j] in s.runs ==> s.runs[s.dequeued[j]].sub != sub
  }

  /** The status a submission takes over from a run that has ended. */
  predicate Follows(sub: SubStatus, run: RunStatus) {
    && (sub == SubCompleted <==> run == RunCompleted)
    && (sub == SubFailed <==> run == RunFailed)
  }

  /** The worker gives up a run only once its submission is marked failed too. */
  predicate BuriedMarked(s: State) {
    s.pc.Burying? && s.pc.run in s.runs ==> s.runs[s.pc.run].sub in s.subs && s.subs[s.runs[s.pc.run].sub] == SubFailed
  }

  ghost predicate StatusesFollow(s: State) {
    && BuriedMarked(s)
    && (forall sub, i :: sub in s.subs && LastTaken(s, sub, i) && !Current(s, s.dequeued[i]) ==>
          Follows(s.subs[sub], s.runs[s.dequeued[i]].status))
    && (forall sub :: sub in s.subs && NoneTaken(s, sub) ==> s.subs[sub] == SubStatus.Pending)
  }

  // ---------- Requests ----------

  lemma ApiTaken(s: State, a: Action, sub: Id)
    requires Invariant(s) && Enabled(s, a) && !a.Work? && !a.Dequeue? && sub in Next(s, a).subs
    ensures var n := Next(s, a);
            && n.dequeued == s.dequeued && n.pc == s.pc
            && (NoneTaken(n, sub) ==> NoneTaken(s, sub))
            && (forall i :: LastTaken(n, sub, i) ==>
                  LastTaken(s, sub, i) && n.runs[n.dequeued[i]] == s.runs[s.dequeued[i]])
  {
    hide SubsOwned, RunsMatch, WorkerLinked;
    var n := Next(s, a);
    forall j | 0 <= j < |s.dequeued| && s.dequeued[j] in s.runs && s.runs[s.dequeued[j]].sub == sub
      ensures s.dequeued[j] in n.runs && n.runs[s.dequeued[j]] == s.runs[s.dequeued[j]]
    {
      if a.TriggerInsert? {
        UnusedNotDequeued(s, a.run);
      }
    }
    forall j | 0 <= j < |s.dequeued| && s.dequeued[j] in n.runs
      ensures s.dequeued[j] in s.runs && n.runs[s.dequeued[j]] == s.runs[s.dequeued[j]]
    {
      if a.TriggerInsert? {
        UnusedNotDequeued(s, a.run);
        assert Dequeued(s, s.dequeued[j]);
      }
    }
  }

  lemma ApiSubs(s: State, a: Action, sub: Id)
    requires RowsLinked(s) && Enabled(s, a) && !a.Work? && !a.Dequeue? && sub in Next(s, a).subs
    ensures if sub in s.subs then Next(s, a).subs[sub] == s.subs[sub]
            else a == Create(sub) && Next(s, a).subs[sub] == SubStatus.Pending
  {
  }

  lemma ApiFollows(s: State, a: Action)
    requires Invariant(s) && StatusesFollow(s) && Enabled(s, a) && !a.Work? && !a.Dequeue?
    ensures StatusesFollow(Next(s, a))
  {
    var n := Next(s, a);
    ApiBuried(s, a);
    forall sub | sub in n.subs
      ensures NoneTaken(n, sub) ==> n.subs[sub] == SubStatus.Pending
      ensures forall i :: LastTaken(n, sub, i) && !Current(n, n.dequeued[i]) ==>
                Follows(n.subs[sub], n.runs[n.dequeued[i]].status)
    {
      hide Next, Enabled, Invariant;
      ApiTaken(s, a, sub);
      LinkedRows(s);
      ApiSubs(s, a, sub);
    }
  }

  lemma LinkedRows(s: State)
    requires Invariant(s)
    ensures RowsLinked(s)
  {
  }

  lemma ApiBuried(s: State, a: Action)
    requires Invariant(s) && BuriedMarked(s) && Enabled(s, a) && !a.Work? && !a.Dequeue?
    ensures BuriedMarked(Next(s, a))
  {
    hide SubsOwned, RunsMatch, WorkerLinked;
    if a.TriggerInsert? {
      UnusedNotDequeued(s, a.run);
    }
  }

  // ---------- Taking a run ----------

  lemma DequeueFollows(s: State)
    requires Invariant(s) && StatusesFollow(s) && Enabled(s, Dequeue)
    ensures StatusesFollow(Next(s, Dequeue))
  {
    hide SubsOwned, RunsMatch, WorkerLinked;
    var n := Next(s, Dequeue);
    var last := |s.dequeued|;
    forall sub, i | sub in n.subs && LastTaken(n, sub, i) && !Current(n, n.dequeued[i])
      ensures Follows(n.subs[sub], n.runs[n.dequeued[i]].status)
    {
      assert i < last && n.dequeued[i] == s.dequeued[i];
      assert forall j :: 0 <= j < last ==> n.dequeued[j] == s.dequeued[j];
      assert LastTaken(s, sub, i);
    }
    forall sub | sub in n.subs && NoneTaken(n, sub)
      ensures n.subs[sub] == SubStatus.Pending
    {
      assert forall j :: 0 <= j < last ==> n.dequeued[j] == s.dequeued[j];
      assert NoneTaken(s, sub);
    }
  }

  // ---------- The worker ----------

  /** The worker writes no submission but that of its run, and leaves its run only when that
      has ended and the submission says the same. */
  lemma WorkSubs(s: State, o: Outcome)
    requires Invariant(s) && BuriedMarked(s) && s.pc != Idle && Dependable(s.pc, o)
    ensures var n := WorkerStep(s, o);
            && BuriedMarked(n)
            && (forall sub :: sub in s.subs ==> sub in n.subs)
            && (forall sub :: sub in s.subs && (s.pc.run in s.runs ==> s.runs[s.pc.run].sub != sub) ==>
                  n.subs[sub] == s.subs[sub])
            && (n.pc == Idle && s.pc.run in s.runs ==>
                  s.runs[s.pc.run].sub in n.subs
                  && Follows(n.subs[s.runs[s.pc.run].sub], n.runs[s.pc.run].status))
  {
    hide SubsOwned, QueueFaithful;
    WorkFrame(s, o);
    if s.pc.run in s.runs {
      assert RunMatches(s.pc, s.runs[s.pc.run].status);
    }
  }

  lemma WorkFollows(s: State, o: Outcome)
    requires Invariant(s) && StatusesFollow(s) && s.pc != Idle && Dependable(s.pc, o)
    ensures StatusesFollow(WorkerStep(s, o))
  {
    WorkSubs(s, o);
    WorkFrame(s, o);
    WorkLeavesOthers(s, o);
    WorkTaken(s, o);
    hide WorkerStep, Invariant;
  }

  lemma WorkTaken(s: State, o: Outcome)
    requires Invariant(s) && s.pc != Idle
    ensures var n := WorkerStep(s, o);
            && (forall sub :: NoneTaken(n, sub) ==> NoneTaken(s, sub))
            && (forall sub, i :: LastTaken(n, sub, i) ==> LastTaken(s, sub, i))
            && (forall sub, i :: LastTaken(n, sub, i) && s.pc.run in s.runs && s.runs[s.pc.run].sub == sub ==>
                  n.dequeued[i] == s.pc.run)
            && (forall sub :: NoneTaken(n, sub) && s.pc.run in s.runs ==> s.runs[s.pc.run].sub != sub)
  {
    hide WorkerStep, SubsOwned, RunsMatch, WorkerLinked, RowsLinked;
    WorkFrame(s, o);
    var last := |s.dequeued| - 1;
    assert s.dequeued[last] == s.pc.run;
  }

  // ---------- Whole runs ----------

  lemma StepFollows(s: State, a: Action)
    requires Invariant(s) && StatusesFollow(s) && Enabled(s, a) && (a.Work? ==> Dependable(s.pc, a.outcome))
    ensures StatusesFollow(Next(s, a))
  {
    hide StatusesFollow, Invariant;
    match a
    case Work(o) => WorkFollows(s, o);
    case Dequeue => DequeueFollows(s);
    case _ => ApiFollows(s, a);
  }

  lemma {:induction false} RunFollows(s: State, acts: seq<Action>)
    requires Invariant(s) && StatusesFollow(s) && Feasible(s, acts) && Reliable(s, acts)
    ensures Invariant(After(s, acts)) && StatusesFollow(After(s, acts))
    decreases |acts|
  {
    hide Invariant, StatusesFollow, Next, Enabled, Dependable;
    if acts != [] {
      StepKeeps(s, acts[0]);
      StepFollows(s, acts[0]);
      RunFollows(Next(s, acts[0]), acts[1..]);
    }
  }

  lemma InitialFollows(s: State)
    requires Initial(s)
    ensures StatusesFollow(s)
  {
  }

  /** On every reliable run: a submission none of whose runs has been taken is pending; and once
      the worker is past the last of its runs that was taken, it is completed if and only if
      that run is, and failed if and only if that run is. */
  lemma SubmissionFollowsRun(s0: State, acts: seq<Action>, sub: Id)
    requires Initial(s0) && Feasible(s0, acts) && Reliable(s0, acts) && sub in After(s0, acts).subs
    ensures var s := After(s0, acts);
            && (NoneTaken(s, sub) ==> s.subs[sub] == SubStatus.Pending)
            && (forall i :: LastTaken(s, sub, i) && !Current(s, s.dequeued[i]) ==>
                  && (s.subs[sub] == SubCompleted <==> s.runs[s.dequeued[i]].status == RunCompleted)
                  && (s.subs[sub] == SubFailed <==> s.runs[s.dequeued[i]].status == RunFailed))
  {
    hide Invariant;
    InitialInvariant(s0);
    InitialFollows(s0);
    RunFollows(s0, acts);
  }
}
