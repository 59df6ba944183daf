/** Submissions and benchmark runs: API requests, in their separate database steps,
    interleaved with the queue and the single worker's pipeline. */
module Lifecycle {

  type Id = nat

  datatype SubStatus = Pending | Building | Ready | SubRunning | SubCompleted | SubFailed

  datatype RunStatus = Queued | RunRunning | RunCompleted | RunFailed

  datatype Run = Run(sub: Id, status: RunStatus)

  /** The next thing processRun does with a run and its submission. */
  datatype Stage =
    | MarkRunning | MarkBuilding | Build | Launch | AwaitHealth | MarkSubRunning | StartFleet | Benchmark
    | StopFleet | StopIngester | Score | TearDown | MarkCompleted | MarkSubCompleted
    | FailTearDown
    | ShutFleet | ShutIngester | ShutTearDown

  datatype Pc =
    | Idle
    | Loading(run: Id)
    | LoadingSub(run: Id, sub: Id)
    | At(stage: Stage, run: Id, sub: Id)
    | FailMark(run: Id)
    | FailLookup(run: Id)
    | FailSub(run: Id, sub: Id)
    | Burying(run: Id)

  datatype Effect = Launched | FleetStarted | FleetStopped | IngesterStopped | TornDown

  /** How a call made at some stage ends: well, with an error, or, while the benchmark runs,
      cut off by the service shutting down. */
  datatype Outcome = Succeeds | Errs | ShutsDown

  datatype State = State(
    subs: map<Id, SubStatus>,
    runs: map<Id, Run>,
    everSubs: set<Id>,            // ids ever given out
    everRuns: set<Id>,
    queue: seq<Id>,               // the Redis list, left end first
    dead: seq<Id>,
    inserting: multiset<Id>,      // TriggerRun requests past their check
    enqueuing: set<Id>,           // runs inserted and not yet pushed
    deleting: multiset<Id>,       // Delete requests past their check
    pc: Pc,
    effects: seq<Effect>,         // of the current run
    enqueued: seq<Id>,            // histories
    dequeued: seq<Id>)

  predicate Terminal(status: RunStatus) {
    status == RunCompleted || status == RunFailed
  }

  /** The states from which a run may be triggered. */
  predicate Runnable(status: SubStatus) {
    status.Pending? || status.Ready? || status.SubCompleted?
  }

  // ---------- Database rows ----------

  function SetSub(subs: map<Id, SubStatus>, id: Id, status: SubStatus): (r: map<Id, SubStatus>)
    ensures r.Keys == subs.Keys
    ensures forall k :: k in subs && k != id ==> r[k] == subs[k]
    ensures id in subs ==> r[id] == status
  {
    if id in subs then subs[id := status] else subs
  }

  function SetRun(runs: map<Id, Run>, id: Id, status: RunStatus): (r: map<Id, Run>)
    ensures r.Keys == runs.Keys
    ensures forall k :: k in runs ==> r[k].sub == runs[k].sub && (k != id ==> r[k] == runs[k])
    ensures id in runs ==> r[id].status == status
  {
    if id in runs then runs[id := runs[id].(status := status)] else runs
  }

  /** Deleting a submission takes its runs along. */
  function Cascaded(runs: map<Id, Run>, sub: Id): map<Id, Run> {
    map r | r in runs && runs[r].sub != sub :: runs[r]
  }

  // ---------- The worker ----------

  /** One call of processRun, or of the loop around it. */
  function WorkerStep(s: State, o: Outcome): State
    requires s.pc != Idle
  {
    match s.pc
    case Loading(r) =>
      if o.Succeeds? && r in s.runs then s.(pc := LoadingSub(r, s.runs[r].sub)) else s.(pc := FailMark(r))
    case LoadingSub(r, sub) =>
      if o.Succeeds? && sub in s.subs then s.(pc := At(MarkRunning, r, sub)) else s.(pc := FailMark(r))
    case At(stage, r, sub) => StageStep(s, stage, r, sub, o)
    case FailMark(r) =>
      s.(runs := if o.Succeeds? then SetRun(s.runs, r, RunFailed) else s.runs, pc := FailLookup(r))
    case FailLookup(r) =>
      if o.Succeeds? && r in s.runs then s.(pc := FailSub(r, s.runs[r].sub)) else s.(pc := Burying(r))
    case FailSub(r, sub) =>
      s.(subs := if o.Succeeds? then SetSub(s.subs, sub, SubFailed) else s.subs, pc := Burying(r))
    case Burying(r) =>
      s.(dead := if o.Succeeds? then [r] + s.dead else s.dead, pc := Idle)
    case Idle => s
  }

  /** Where a stage of the pipeline leads. */
  function StageExit(stage: Stage, r: Id, sub: Id, o: Outcome): Pc {
    match stage
    case MarkRunning => if o.Succeeds? then At(MarkBuilding, r, sub) else Burying(r)
    case MarkBuilding => if o.Succeeds? then At(Build, r, sub) else Burying(r)
    case Build => if o.Succeeds? then At(Launch, r, sub) else FailMark(r)
    case Launch => if o.Succeeds? then At(AwaitHealth, r, sub) else FailMark(r)
    case AwaitHealth => if o.Succeeds? then At(MarkSubRunning, r, sub) else At(FailTearDown, r, sub)
    case MarkSubRunning => At(StartFleet, r, sub)
    case StartFleet => if o.Succeeds? then At(Benchmark, r, sub) else At(FailTearDown, r, sub)
    case Benchmark => if o.ShutsDown? then At(ShutFleet, r, sub) else At(StopFleet, r, sub)
    case StopFleet => At(StopIngester, r, sub)
    case StopIngester => At(Score, r, sub)
    case Score => At(TearDown, r, sub)
    case TearDown => At(MarkCompleted, r, sub)
    case MarkCompleted => At(MarkSubCompleted, r, sub)
    case MarkSubCompleted => Idle
    case FailTearDown => FailMark(r)
    case ShutFleet => At(ShutIngester, r, sub)
    case ShutIngester => At(ShutTearDown, r, sub)
    case ShutTearDown => Burying(r)
  }

  /** The sandbox, fleet and ingester calls of a stage that leave a trace. */
  function StageEffects(stage: Stage, o: Outcome): seq<Effect> {
    match stage
    case Launch => if o.Succeeds? then [Launched] else []
    case StartFleet => if o.Succeeds? then [FleetStarted] else []
    case StopFleet => [FleetStopped]
    case ShutFleet => [FleetStopped]
    case StopIngester => [IngesterStopped]
    case ShutIngester => [IngesterStopped]
    case TearDown => [TornDown]
    case FailTearDown => [TornDown]
    case ShutTearDown => [TornDown]
    case _ => []
  }

  /** The rows a stage writes; a failed write writes nothing. */
  function StageRuns(runs: map<Id, Run>, stage: Stage, r: Id, o: Outcome): map<Id, Run> {
    match stage
    case MarkRunning => if o.Succeeds? then SetRun(runs, r, RunRunning) else runs
    case MarkCompleted => if o.Succeeds? then SetRun(runs, r, RunCompleted) else runs
    case _ => runs
  }

  function StageSubs(subs: map<Id, SubStatus>, stage: Stage, sub: Id, o: Outcome): map<Id, SubStatus> {
    match stage
    case MarkBuilding => if o.Succeeds? then SetSub(subs, sub, Building) else subs
    case MarkSubRunning => if o.Succeeds? then SetSub(subs, sub, SubRunning) else subs
    case MarkSubCompleted => if o.Succeeds? then SetSub(subs, sub, SubCompleted) else subs
    case _ => subs
  }

  function StageStep(s: State, stage: Stage, r: Id, sub: Id, o: Outcome): State {
    s.(pc := StageExit(stage, r, sub, o), effects := s.effects + StageEffects(stage, o),
       runs := StageRuns(s.runs, stage, r, o), subs := StageSubs(s.subs, stage, sub, o))
  }

  /** Stages that write a status. */
  predicate WritesRow(stage: Stage) {
    stage in {MarkRunning, MarkBuilding, MarkSubRunning, MarkCompleted, MarkSubCompleted}
  }

  /** A database that never errs, and no shutdown; the sandbox may fail as it likes. */
  predicate Dependable(pc: Pc, o: Outcome) {
    match pc
    case At(stage, _, _) =>
      (stage.Benchmark? ==> !o.ShutsDown?)
      && (WritesRow(stage) ==> o.Succeeds?)
    case _ => o.Succeeds?
  }

  // ---------- Actions ----------

  datatype Action =
    | Create(sub: Id)
    | TriggerCheck(sub: Id) | TriggerInsert(sub: Id, run: Id) | TriggerEnqueue(run: Id) | TriggerEnqueueFails(run: Id)
    | DeleteCheck(sub: Id) | DeleteRow(sub: Id)
    | Dequeue
    | Work(outcome: Outcome)

  predicate Enabled(s: State, a: Action) {
    match a
    case Create(sub) => sub !in s.everSubs
    case TriggerCheck(sub) => sub in s.subs && Runnable(s.subs[sub])
    case TriggerInsert(sub, r) => sub in s.inserting && r !in s.everRuns
    case TriggerEnqueue(r) => r in s.enqueuing
    case TriggerEnqueueFails(r) => r in s.enqueuing
    case DeleteCheck(sub) => sub in s.subs && !s.subs[sub].SubRunning?
    case DeleteRow(sub) => sub in s.deleting
    case Dequeue => s.pc == Idle && s.queue != []
    case Work(_) => s.pc != Idle
  }

  function Next(s: State, a: Action): State
    requires Enabled(s, a)
  {
    match a
    case Create(sub) => s.(subs := s.subs[sub := Pending], everSubs := s.everSubs + {sub})
    case TriggerCheck(sub) => s.(inserting := s.inserting + multiset{sub})
    case TriggerInsert(sub, r) =>
      var t := s.(inserting := s.inserting - multiset{sub});
      // the foreign key refuses a run of a submission deleted meanwhile
      if sub in s.subs
      then t.(runs := s.runs[r := Run(sub, Queued)], everRuns := s.everRuns + {r}, enqueuing := s.enqueuing + {r})
      else t
    case TriggerEnqueue(r) =>
      s.(queue := [r] + s.queue, enqueued := s.enqueued + [r], enqueuing := s.enqueuing - {r})
    case TriggerEnqueueFails(r) => s.(enqueuing := s.enqueuing - {r})
    case DeleteCheck(sub) => s.(deleting := s.deleting + multiset{sub})
    case DeleteRow(sub) =>
      s.(subs := s.subs - {sub}, runs := Cascaded(s.runs, sub), deleting := s.deleting - multiset{sub})
    case Dequeue =>
      var last := |s.queue| - 1;
      s.(queue := s.queue[..last], dequeued := s.dequeued + [s.queue[last]],
         pc := Loading(s.queue[last]), effects := [])
    case Work(o) => WorkerStep(s, o)
  }

  predicate Initial(s: State) {
    && s.subs == map[] && s.runs == map[] && s.queue == s.dead == s.enqueued == s.dequeued == []
    && s.enqueuing == {} && s.inserting == s.deleting == multiset{} && s.pc == Idle && s.effects == []
  }

  predicate Feasible(s: State, acts: seq<Action>)
    decreases |acts|
  {
    acts == [] || (Enabled(s, acts[0]) && Feasible(Next(s, acts[0]), acts[1..]))
  }

  function After(s: State, acts: seq<Action>): State
    requires Feasible(s, acts)
    decreases |acts|
  {
    if acts == [] then s else After(Next(s, acts[0]), acts[1..])
  }

  /** No database call errs and the service is not shut down. */
  predicate Reliable(s: State, acts: seq<Action>)
    requires Feasible(s, acts)
    decreases |acts|
  {
    acts != [] ==>
      (acts[0].Work? ==> Dependable(s.pc, acts[0].outcome)) && Reliable(Next(s, acts[0]), acts[1..])
  }

  // ---------- Invariants of reliable runs ----------

  function Reverse(q: seq<Id>): seq<Id> {
    if q == [] then [] else Reverse(q[1..]) + [q[0]]
  }

  predicate NoRepeats(q: seq<Id>) {
    forall i, j :: 0 <= i < j < |q| ==> q[i] != q[j]
  }

  /** First in, first out, each run once. */
  predicate QueueFaithful(s: State) {
    && s.enqueued == s.dequeued + Reverse(s.queue)
    && NoRepeats(s.enqueued)
    && (forall i :: 0 <= i < |s.enqueued| ==> s.enqueued[i] in s.everRuns && s.enqueued[i] !in s.enqueuing)
    && s.enqueuing <= s.everRuns
    && (s.pc != Idle ==> s.dequeued != [] && s.dequeued[|s.dequeued| - 1] == s.pc.run)
  }

  predicate RowsLinked(s: State) {
    && (forall r :: r in s.runs ==> r in s.everRuns && s.runs[r].sub in s.subs)
    && (forall sub :: sub in s.subs ==> sub in s.everSubs)
  }

  /** While its submission exists, the worker's run exists and is that submission's. */
  predicate WorkerLinked(s: State) {
    match s.pc
    case LoadingSub(r, sub) => LinkedRun(s, r, sub)
    case At(_, r, sub) => LinkedRun(s, r, sub)
    case FailSub(r, sub) => LinkedRun(s, r, sub)
    case _ => true
  }

  predicate LinkedRun(s: State, r: Id, sub: Id) {
    sub in s.everSubs && (sub in s.subs ==> r in s.runs) && (r in s.runs ==> s.runs[r].sub == sub)
  }

  /** The status the worker's run has at this point of the pipeline. */
  predicate RunMatches(pc: Pc, status: RunStatus) {
    match pc
    case Idle => false
    case Loading(_) => status.Queued?
    case LoadingSub(_, _) => status.Queued?
    case At(stage, _, _) =>
      if stage.MarkRunning? then status.Queued?
      else if stage.MarkSubCompleted? then status.RunCompleted?
      else status.RunRunning?
    case FailMark(_) => status.RunRunning? || status.Queued?
    case FailLookup(_) => status.RunFailed?
    case FailSub(_, _) => status.RunFailed?
    case Burying(_) => status.RunFailed?
  }

  predicate Dequeued(s: State, r: Id) {
    exists i :: 0 <= i < |s.dequeued| && s.dequeued[i] == r
  }

  /** Runs not yet taken from the queue are queued; the worker's run has the status of its
      stage; every other run taken before has ended. */
  predicate RunsMatch(s: State) {
    forall r :: r in s.runs ==>
      if s.pc != Idle && s.pc.run == r then RunMatches(s.pc, s.runs[r].status)
      else if Dequeued(s, r) then Terminal(s.runs[r].status)
      else s.runs[r].status == Queued
  }

  /** The points of the pipeline at which the worker's submission is building, or running. */
  predicate BuildingAt(pc: Pc) {
    match pc
    case At(stage, _, _) =>
      stage.Build? || stage.Launch? || stage.AwaitHealth? || stage.MarkSubRunning? || stage.FailTearDown?
    case _ => pc.FailMark? || pc.FailLookup? || pc.FailSub?
  }

  predicate SubRunningAt(pc: Pc) {
    match pc
    case At(stage, _, _) =>
      stage.StartFleet? || stage.Benchmark? || stage.StopFleet? || stage.StopIngester? || stage.Score?
      || stage.TearDown? || stage.MarkCompleted? || stage.MarkSubCompleted? || stage.FailTearDown?
    case _ => pc.FailMark? || pc.FailLookup? || pc.FailSub?
  }

  /** A submission that is building or running belongs to the worker's run. */
  predicate SubsOwned(s: State) {
    forall sub :: sub in s.subs && (s.subs[sub].Building? || s.subs[sub].SubRunning?) ==>
      && s.pc != Idle && s.pc.run in s.runs && s.runs[s.pc.run].sub == sub
      && (s.subs[sub].Building? ==> BuildingAt(s.pc))
      && (s.subs[sub].SubRunning? ==> SubRunningAt(s.pc))
  }

  predicate NotShuttingDown(pc: Pc) {
    pc.At? ==> !pc.stage.ShutFleet? && !pc.stage.ShutIngester? && !pc.stage.ShutTearDown?
  }

  predicate Invariant(s: State) {
    QueueFaithful(s) && RowsLinked(s) && WorkerLinked(s) && RunsMatch(s) && SubsOwned(s) && NotShuttingDown(s.pc)
  }

  lemma QueuePushed(s: State, r: Id)
    requires QueueFaithful(s) && r in s.enqueuing
    ensures QueueFaithful(Next(s, TriggerEnqueue(r)))
  {
    var n := Next(s, TriggerEnqueue(r));
    assert n.queue[1..] == s.queue;
    assert n.enqueued == s.dequeued + Reverse(s.queue) + [r];
  }

  lemma {:induction false} ReverseTakes(q: seq<Id>)
    requires q != []
    ensures Reverse(q) == [q[|q| - 1]] + Reverse(q[..|q| - 1])
  {
    if |q| > 1 {
      ReverseTakes(q[1..]);
      assert q[1..][..|q| - 2] == q[..|q| - 1][1..];
    } else {
      assert q[1..] == [] && q[..0] == [];
    }
  }

  lemma QueuePopped(s: State)
    requires QueueFaithful(s) && Enabled(s, Dequeue)
    ensures QueueFaithful(Next(s, Dequeue))
    ensures !Dequeued(s, s.queue[|s.queue| - 1])
  {
    ReverseTakes(s.queue);
    var last := |s.queue| - 1;
    assert s.enqueued == (s.dequeued + [s.queue[last]]) + Reverse(s.queue[..last]);
    assert s.enqueued[|s.dequeued|] == s.queue[last];
    forall i | 0 <= i < |s.dequeued|
      ensures s.dequeued[i] != s.queue[last]
    {
      assert s.enqueued[i] == s.dequeued[i];
    }
  }

  lemma DequeueKeeps(s: State)
    requires Invariant(s) && Enabled(s, Dequeue)
    ensures Invariant(Next(s, Dequeue))
  {
    QueuePopped(s);
    var n := Next(s, Dequeue);
    var r0 := s.queue[|s.queue| - 1];
    forall r | r in n.runs && r != r0
      ensures Dequeued(n, r) <==> Dequeued(s, r)
    {
      DequeuedExtended(s, n, r);
    }
  }

  lemma DequeuedExtended(s: State, n: State, r: Id)
    requires |n.dequeued| == |s.dequeued| + 1 && n.dequeued[..|s.dequeued|] == s.dequeued
    requires r != n.dequeued[|s.dequeued|]
    ensures Dequeued(n, r) <==> Dequeued(s, r)
  {
    if Dequeued(s, r) {
      var i :| 0 <= i < |s.dequeued| && s.dequeued[i] == r;
      assert n.dequeued[..|s.dequeued|][i] == r;
    }
    if Dequeued(n, r) {
      var i :| 0 <= i < |n.dequeued| && n.dequeued[i] == r;
      assert n.dequeued[..|s.dequeued|][i] == r;
    }
  }

  lemma UnusedNotDequeued(s: State, r: Id)
    requires QueueFaithful(s) && r !in s.everRuns
    ensures !Dequeued(s, r) && (s.pc != Idle ==> s.pc.run != r)
  {
    assert forall i :: 0 <= i < |s.dequeued| ==> s.dequeued[i] == s.enqueued[i];
  }

  lemma DeleteKeeps(s: State, sub: Id)
    requires Invariant(s) && Enabled(s, DeleteRow(sub))
    ensures Invariant(Next(s, DeleteRow(sub)))
  {
    var n := Next(s, DeleteRow(sub));
    assert forall r :: Dequeued(n, r) == Dequeued(s, r);
  }

  lemma InsertKeeps(s: State, sub: Id, r: Id)
    requires Invariant(s) && Enabled(s, TriggerInsert(sub, r))
    ensures Invariant(Next(s, TriggerInsert(sub, r)))
  {
    UnusedNotDequeued(s, r);
  }

  lemma ApiKeeps(s: State, a: Action)
    requires Invariant(s) && Enabled(s, a) && !a.Work? && !a.Dequeue?
    ensures Invariant(Next(s, a))
  {
    match a
    case TriggerEnqueue(r) => QueuePushed(s, r);
    case TriggerInsert(sub, r) => InsertKeeps(s, sub, r);
    case DeleteRow(sub) => DeleteKeeps(s, sub);
    case _ =>
  }

  /** The worker leaves the queue and all ids alone, and stays with its run. */
  predicate SameQueue(s: State, n: State) {
    && n.queue == s.queue && n.enqueued == s.enqueued && n.dequeued == s.dequeued && n.enqueuing == s.enqueuing
    && n.everSubs == s.everSubs && n.everRuns == s.everRuns
  }

  predicate SameRows(s: State, n: State) {
    && n.subs.Keys == s.subs.Keys && n.runs.Keys == s.runs.Keys
    && (forall r :: r in s.runs ==> n.runs[r].sub == s.runs[r].sub)
  }

  lemma StageFrame(s: State, o: Outcome)
    requires s.pc.At?
    ensures SameQueue(s, WorkerStep(s, o))
  {
  }

  lemma StageStays(s: State, o: Outcome)
    requires s.pc.At?
    ensures WorkerStep(s, o).pc != Idle ==> WorkerStep(s, o).pc.run == s.pc.run
  {
  }

  lemma StageRows(s: State, o: Outcome)
    requires s.pc.At?
    ensures SameRows(s, WorkerStep(s, o))
  {
    if WritesRow(s.pc.stage) {
    } else {
      assert WorkerStep(s, o).subs == s.subs && WorkerStep(s, o).runs == s.runs;
    }
  }

  lemma LoopFrame(s: State, o: Outcome)
    requires !s.pc.At? && s.pc != Idle
    ensures SameQueue(s, WorkerStep(s, o)) && (WorkerStep(s, o).pc != Idle ==> WorkerStep(s, o).pc.run == s.pc.run)
    ensures SameRows(s, WorkerStep(s, o))
  {
  }

  lemma WorkFrame(s: State, o: Outcome)
    requires s.pc != Idle
    ensures SameQueue(s, WorkerStep(s, o)) && (WorkerStep(s, o).pc != Idle ==> WorkerStep(s, o).pc.run == s.pc.run)
    ensures SameRows(s, WorkerStep(s, o))
  {
    if s.pc.At? {
      StageFrame(s, o);
      StageStays(s, o);
      StageRows(s, o);
    } else {
      LoopFrame(s, o);
    }
  }

  lemma WorkKeepsQueue(s: State, o: Outcome)
    requires QueueFaithful(s) && RowsLinked(s) && s.pc != Idle
    ensures QueueFaithful(WorkerStep(s, o)) && RowsLinked(WorkerStep(s, o))
  {
    WorkFrame(s, o);
  }

  lemma StageKeepsLinks(s: State, o: Outcome)
    requires WorkerLinked(s) && s.pc.At? && Dependable(s.pc, o) && NotShuttingDown(s.pc)
    ensures var n := WorkerStep(s, o); WorkerLinked(n) && NotShuttingDown(n.pc)
  {
    WorkFrame(s, o);
    assert WorkerStep(s, o).pc.At? ==> WorkerStep(s, o).pc.sub == s.pc.sub;
  }

  lemma LoopKeepsLinks(s: State, o: Outcome)
    requires QueueFaithful(s) && RowsLinked(s) && WorkerLinked(s) && !s.pc.At? && s.pc != Idle && Dependable(s.pc, o)
    ensures var n := WorkerStep(s, o); WorkerLinked(n) && NotShuttingDown(n.pc)
  {
    assert s.dequeued[|s.dequeued| - 1] == s.enqueued[|s.dequeued| - 1];
  }

  lemma StageKeepsOthers(s: State, o: Outcome)
    requires RunsMatch(s) && s.pc.At?
    ensures var n := WorkerStep(s, o);
            && (forall r :: r in n.runs && r != s.pc.run ==> n.runs[r] == s.runs[r])
            && (forall r :: Dequeued(n, r) == Dequeued(s, r))
  {
  }

  lemma StageKeepsOwn(s: State, o: Outcome)
    requires RunsMatch(s) && s.pc.At? && Dependable(s.pc, o) && NotShuttingDown(s.pc) && s.pc.run in s.runs
    ensures var n := WorkerStep(s, o);
            if n.pc == Idle then Terminal(n.runs[s.pc.run].status)
            else n.pc.run == s.pc.run && RunMatches(n.pc, n.runs[s.pc.run].status)
  {
    assert RunMatches(s.pc, s.runs[s.pc.run].status);
  }

  lemma StageKeepsRuns(s: State, o: Outcome)
    requires QueueFaithful(s) && RunsMatch(s) && s.pc.At? && Dependable(s.pc, o) && NotShuttingDown(s.pc)
    ensures RunsMatch(WorkerStep(s, o))
  {
    assert Dequeued(s, s.pc.run);
    WorkFrame(s, o);
    StageKeepsOthers(s, o);
    if s.pc.run in s.runs {
      StageKeepsOwn(s, o);
    }
  }

  lemma LoopKeepsRuns(s: State, o: Outcome)
    requires QueueFaithful(s) && RunsMatch(s) && !s.pc.At? && s.pc != Idle && Dependable(s.pc, o)
    ensures RunsMatch(WorkerStep(s, o))
  {
    assert Dequeued(s, s.pc.run);
    assert forall r :: Dequeued(WorkerStep(s, o), r) == Dequeued(s, r);
  }

  lemma StageKeepsSubs(s: State, o: Outcome)
    requires RowsLinked(s) && WorkerLinked(s) && SubsOwned(s) && s.pc.At? && Dependable(s.pc, o)
    requires NotShuttingDown(s.pc)
    ensures SubsOwned(WorkerStep(s, o))
  {
    if WritesRow(s.pc.stage) {
      WriteKeepsSubs(s, o);
    }
  }

  lemma WriteKeepsSubs(s: State, o: Outcome)
    requires WorkerLinked(s) && SubsOwned(s) && s.pc.At? && WritesRow(s.pc.stage) && o.Succeeds?
    ensures SubsOwned(WorkerStep(s, o))
  {
  }

  lemma LoopKeepsSubs(s: State, o: Outcome)
    requires RowsLinked(s) && WorkerLinked(s) && SubsOwned(s) && !s.pc.At? && s.pc != Idle && Dependable(s.pc, o)
    ensures SubsOwned(WorkerStep(s, o))
  {
  }

  lemma WorkKeeps(s: State, o: Outcome)
    requires Invariant(s) && s.pc != Idle && Dependable(s.pc, o)
    ensures Invariant(WorkerStep(s, o))
  {
    WorkKeepsQueue(s, o);
    if s.pc.At? {
      StageKeepsLinks(s, o);
      StageKeepsRuns(s, o);
      StageKeepsSubs(s, o);
    } else {
      LoopKeepsLinks(s, o);
      LoopKeepsRuns(s, o);
      LoopKeepsSubs(s, o);
    }
  }

  // ---------- Whole reliable runs ----------

  lemma InitialInvariant(s: State)
    requires Initial(s)
    ensures Invariant(s)
  {
  }

  lemma StepKeeps(s: State, a: Action)
    requires Invariant(s) && Enabled(s, a) && (a.Work? ==> Dependable(s.pc, a.outcome))
    ensures Invariant(Next(s, a))
  {
    match a
    case Work(o) => WorkKeeps(s, o);
    case Dequeue => DequeueKeeps(s);
    case _ => ApiKeeps(s, a);
  }

  lemma {:induction false} ReliableRunKeeps(s: State, acts: seq<Action>)
    requires Invariant(s) && Feasible(s, acts) && Reliable(s, acts)
    ensures Invariant(After(s, acts))
    decreases |acts|
  {
    if acts != [] {
      StepKeeps(s, acts[0]);
      ReliableRunKeeps(Next(s, acts[0]), acts[1..]);
    }
  }

  /** At most one benchmark run is running, and that is the worker's. */
  lemma OneRunning(s0: State, acts: seq<Action>, r: Id, q: Id)
    requires Initial(s0) && Feasible(s0, acts) && Reliable(s0, acts)
    requires var s := After(s0, acts);
             r in s.runs && q in s.runs && s.runs[r].status.RunRunning? && s.runs[q].status.RunRunning?
    ensures var s := After(s0, acts); r == q && s.pc != Idle && s.pc.run == r
  {
    InitialInvariant(s0);
    ReliableRunKeeps(s0, acts);
  }

  /** A submission that is building or running is the worker's, at a matching point. */
  lemma BusySubmissionsOwned(s0: State, acts: seq<Action>, sub: Id)
    requires Initial(s0) && Feasible(s0, acts) && Reliable(s0, acts)
    requires var s := After(s0, acts); sub in s.subs && (s.subs[sub].Building? || s.subs[sub].SubRunning?)
    ensures var s := After(s0, acts);
            && s.pc != Idle && s.pc.run in s.runs && s.runs[s.pc.run].sub == sub
            && if s.subs[sub].Building? then BuildingAt(s.pc) else SubRunningAt(s.pc)
  {
    InitialInvariant(s0);
    ReliableRunKeeps(s0, acts);
  }

  /** A run that has been taken and still exists has ended, unless the worker is at it. */
  lemma TakenRunsEnd(s0: State, acts: seq<Action>, r: Id)
    requires Initial(s0) && Feasible(s0, acts) && Reliable(s0, acts)
    requires var s := After(s0, acts); r in s.runs && Dequeued(s, r) && (s.pc == Idle || s.pc.run != r)
    ensures Terminal(After(s0, acts).runs[r].status)
  {
    InitialInvariant(s0);
    ReliableRunKeeps(s0, acts);
  }

  /** How many calls, at most, the worker is from taking the next run. */
  function Remaining(pc: Pc): nat {
    match pc
    case Idle => 0
    case Burying(_) => 1
    case FailSub(_, _) => 2
    case FailLookup(_) => 3
    case FailMark(_) => 4
    case At(stage, _, _) => StagesLeft(stage)
    case LoadingSub(_, _) => 20
    case Loading(_) => 21
  }

  function StagesLeft(stage: Stage): nat {
    match stage
    case MarkRunning => 19 case MarkBuilding => 18 case Build => 17 case Launch => 16 case AwaitHealth => 15
    case MarkSubRunning => 14 case StartFleet => 13 case Benchmark => 12 case StopFleet => 11 case StopIngester => 10
    case Score => 9 case TearDown => 8 case MarkCompleted => 7 case MarkSubCompleted => 6
    case FailTearDown => 5 case ShutFleet => 4 case ShutIngester => 3 case ShutTearDown => 2
  }

  lemma StageAdvances(stage: Stage, r: Id, sub: Id, o: Outcome)
    ensures Remaining(StageExit(stage, r, sub, o)) < StagesLeft(stage)
  {
  }

  lemma WorkAdvances(s: State, o: Outcome)
    requires s.pc != Idle
    ensures Remaining(WorkerStep(s, o).pc) < Remaining(s.pc)
  {
    if s.pc.At? {
      hide StagesLeft, StageExit;
      StageAdvances(s.pc.stage, s.pc.run, s.pc.sub, o);
      assert WorkerStep(s, o).pc == StageExit(s.pc.stage, s.pc.run, s.pc.sub, o);
    }
  }

  function Works(acts: seq<Action>): nat {
    if acts == [] then 0 else Works(acts[1..]) + if acts[0].Work? then 1 else 0
  }

  predicate NeverIdle(s: State, acts: seq<Action>)
    requires Feasible(s, acts)
    decreases |acts|
  {
    s.pc != Idle && (acts != [] ==> NeverIdle(Next(s, acts[0]), acts[1..]))
  }

  /** Whatever fails and whatever requests come between, the worker is done with a run after
      at most twenty-one of its own steps. */
  lemma {:induction false} ProcessingEnds(s: State, acts: seq<Action>)
    requires Feasible(s, acts) && NeverIdle(s, acts)
    ensures Works(acts) < Remaining(s.pc) <= 21
    decreases |acts|
  {
    if acts != [] {
      ProcessingEnds(Next(s, acts[0]), acts[1..]);
      if acts[0].Work? {
        WorkAdvances(s, acts[0].outcome);
      }
    }
  }

  // ---------- Runs on which anything may fail ----------

  /** May the worker still write the run's status? */
  predicate WritesAhead(pc: Pc) {
    match pc
    case At(stage, _, _) =>
      !stage.MarkSubCompleted? && !stage.ShutFleet? && !stage.ShutIngester? && !stage.ShutTearDown?
    case _ => pc.Loading? || pc.LoadingSub? || pc.FailMark?
  }

  /** What database errors and shutdown leave of the invariant: the queue's part of it, that a run
      not taken is queued, and that one has not ended while the worker may still write it. */
  predicate Steady(s: State) {
    && QueueFaithful(s) && RowsLinked(s)
    && (forall r :: r in s.runs && !Dequeued(s, r) ==> s.runs[r].status == Queued)
    && (WritesAhead(s.pc) && s.pc.run in s.runs ==> !Terminal(s.runs[s.pc.run].status))
  }

  lemma ApiSteady(s: State, a: Action)
    requires Steady(s) && Enabled(s, a) && !a.Work? && !a.Dequeue?
    ensures Steady(Next(s, a))
  {
    assert forall r :: Dequeued(Next(s, a), r) == Dequeued(s, r);
    match a
    case TriggerEnqueue(r) => QueuePushed(s, r);
    case TriggerInsert(sub, r) => UnusedNotDequeued(s, r);
    case _ =>
  }

  lemma DequeueSteady(s: State)
    requires Steady(s) && Enabled(s, Dequeue)
    ensures Steady(Next(s, Dequeue))
  {
    QueuePopped(s);
    var n := Next(s, Dequeue);
    forall r | r in n.runs && !Dequeued(n, r)
      ensures !Dequeued(s, r)
    {
      assert n.dequeued[|s.dequeued|] == s.queue[|s.queue| - 1];
      DequeuedExtended(s, n, r);
    }
  }

  /** The worker writes no run but its own, and that one only while it may. */
  lemma WorkWrites(s: State, o: Outcome)
    requires s.pc != Idle
    ensures var n := WorkerStep(s, o);
            && (forall r :: r in s.runs && (r != s.pc.run || !WritesAhead(s.pc)) ==>
                  r in n.runs && n.runs[r] == s.runs[r])
            && (WritesAhead(n.pc) ==> n.pc != Idle)
            && (WritesAhead(n.pc) && s.pc.run in s.runs ==>
                  WritesAhead(s.pc) && (Terminal(n.runs[s.pc.run].status) ==> Terminal(s.runs[s.pc.run].status)))
  {
    WorkFrame(s, o);
  }

  lemma WorkSteady(s: State, o: Outcome)
    requires Steady(s) && s.pc != Idle
    ensures Steady(WorkerStep(s, o))
  {
    hide WorkerStep, WritesAhead;
    WorkKeepsQueue(s, o);
    WorkWrites(s, o);
    WorkFrame(s, o);
    var n := WorkerStep(s, o);
    assert forall r :: Dequeued(n, r) == Dequeued(s, r);
    assert Dequeued(s, s.pc.run);
  }

  lemma StepSteady(s: State, a: Action)
    requires Steady(s) && Enabled(s, a)
    ensures Steady(Next(s, a))
  {
    match a
    case Work(o) => WorkSteady(s, o);
    case Dequeue => DequeueSteady(s);
    case _ => ApiSteady(s, a);
  }

  lemma InitialSteady(s: State)
    requires Initial(s)
    ensures Steady(s)
  {
  }

  lemma {:induction false} RunSteady(s: State, acts: seq<Action>)
    requires Steady(s) && Feasible(s, acts)
    ensures Steady(After(s, acts))
    decreases |acts|
  {
    hide Steady, Next, Enabled;
    if acts != [] {
      StepSteady(s, acts[0]);
      RunSteady(Next(s, acts[0]), acts[1..]);
    }
  }

  /** Whatever fails, runs are taken in the order in which they were enqueued, and none twice. */
  lemma TakenInOrderOnce(s0: State, acts: seq<Action>)
    requires Initial(s0) && Feasible(s0, acts)
    ensures var s := After(s0, acts); s.dequeued <= s.enqueued && NoRepeats(s.dequeued)
  {
    InitialSteady(s0);
    RunSteady(s0, acts);
    var s := After(s0, acts);
    forall i, j | 0 <= i < j < |s.dequeued|
      ensures s.dequeued[i] != s.dequeued[j]
    {
      assert s.enqueued[i] == s.dequeued[i] && s.enqueued[j] == s.dequeued[j];
    }
  }

  /** The run is there no more, or has ended with this status. */
  predicate Ended(s: State, r: Id, status: RunStatus) {
    r in s.everRuns && Terminal(status) && (r in s.runs ==> s.runs[r].status == status)
  }

  lemma StepKeepsEnded(s: State, a: Action, r: Id, status: RunStatus)
    requires Steady(s) && Enabled(s, a) && Ended(s, r, status)
    ensures Ended(Next(s, a), r, status)
    ensures r in Next(s, a).runs ==> r in s.runs
  {
    hide WorkerStep, WritesAhead;
    if a.Work? {
      WorkFrame(s, a.outcome);
      WorkWrites(s, a.outcome);
    }
  }

  lemma {:induction false} StaysEnded(s: State, acts: seq<Action>, r: Id, status: RunStatus)
    requires Steady(s) && Feasible(s, acts) && Ended(s, r, status)
    ensures Ended(After(s, acts), r, status) && (r in After(s, acts).runs ==> r in s.runs)
    decreases |acts|
  {
    hide Steady, Next, Enabled, Ended;
    if acts != [] {
      StepSteady(s, acts[0]);
      StepKeepsEnded(s, acts[0], r, status);
      StaysEnded(Next(s, acts[0]), acts[1..], r, status);
    }
  }

  /** Completed or failed is for good, whatever fails and be it shutdown: no later step changes
      the status, or brings a deleted run back. */
  lemma EndedForGood(s0: State, past: seq<Action>, acts: seq<Action>, r: Id)
    requires Initial(s0) && Feasible(s0, past) && Feasible(After(s0, past), acts)
    requires var s := After(s0, past); r in s.everRuns && (r in s.runs ==> Terminal(s.runs[r].status))
    ensures var s, n := After(s0, past), After(After(s0, past), acts);
            r in n.runs ==> r in s.runs && n.runs[r].status == s.runs[r].status
  {
    hide Steady, Feasible, After;
    InitialSteady(s0);
    RunSteady(s0, past);
    var s := After(s0, past);
    StaysEnded(s, acts, r, if r in s.runs then s.runs[r].status else RunFailed);
  }

  // ---------- Dead letters ----------

  predicate Current(s: State, r: Id) {
    s.pc != Idle && s.pc.run == r
  }

  /** Dead letters are runs done with, and exactly the failed among those still there. */
  predicate DeadMatch(s: State) {
    && (forall r :: r in s.dead ==> Dequeued(s, r) && !Current(s, r))
    && (forall r :: r in s.runs && !Current(s, r) ==> (r in s.dead <==> s.runs[r].status == RunFailed))
  }

  lemma ApiKeepsDead(s: State, a: Action)
    requires Invariant(s) && DeadMatch(s) && Enabled(s, a) && !a.Work? && !a.Dequeue?
    ensures DeadMatch(Next(s, a))
  {
    assert forall r :: Dequeued(Next(s, a), r) == Dequeued(s, r);
    if a.TriggerInsert? {
      UnusedNotDequeued(s, a.run);
    }
  }

  lemma DequeueKeepsDead(s: State)
    requires Invariant(s) && DeadMatch(s) && Enabled(s, Dequeue)
    ensures DeadMatch(Next(s, Dequeue))
  {
    QueuePopped(s);
    var n := Next(s, Dequeue);
    forall r | r in n.dead
      ensures Dequeued(n, r) && !Current(n, r)
    {
      DequeuedExtended(s, n, r);
    }
  }

  lemma WorkKeepsDead(s: State, o: Outcome)
    requires Invariant(s) && DeadMatch(s) && s.pc != Idle && Dependable(s.pc, o)
    ensures DeadMatch(WorkerStep(s, o))
  {
    var n := WorkerStep(s, o);
    WorkFrame(s, o);
    assert Dequeued(s, s.pc.run);
    assert forall r :: Dequeued(n, r) == Dequeued(s, r);
    WorkLeavesOthers(s, o);
    if n.pc == Idle && s.pc.run in s.runs {
      assert RunMatches(s.pc, s.runs[s.pc.run].status);
    }
  }

  lemma WorkLeavesOthers(s: State, o: Outcome)
    requires s.pc != Idle && Dependable(s.pc, o)
    ensures var n := WorkerStep(s, o);
            && (forall r :: r in s.runs && r != s.pc.run ==> n.runs[r] == s.runs[r])
            && n.dead == if s.pc.Burying? then [s.pc.run] + s.dead else s.dead
  {
    WorkFrame(s, o);
  }

  lemma StepKeepsDead(s: State, a: Action)
    requires Invariant(s) && DeadMatch(s) && Enabled(s, a) && (a.Work? ==> Dependable(s.pc, a.outcome))
    ensures DeadMatch(Next(s, a))
  {
    match a
    case Work(o) => WorkKeepsDead(s, o);
    case Dequeue => DequeueKeepsDead(s);
    case _ => ApiKeepsDead(s, a);
  }

  lemma {:induction false} RunKeepsDead(s: State, acts: seq<Action>)
    requires Invariant(s) && DeadMatch(s) && Feasible(s, acts) && Reliable(s, acts)
    ensures DeadMatch(After(s, acts))
    decreases |acts|
  {
    if acts != [] {
      StepKeeps(s, acts[0]);
      StepKeepsDead(s, acts[0]);
      RunKeepsDead(Next(s, acts[0]), acts[1..]);
    }
  }

  /** Of the runs the worker has finished with, exactly the failed are in the dead letters. */
  lemma DeadLettersAreFailures(s0: State, acts: seq<Action>, r: Id)
    requires Initial(s0) && Feasible(s0, acts) && Reliable(s0, acts)
    requires var s := After(s0, acts); r in s.runs && !Current(s, r)
    ensures var s := After(s0, acts); r in s.dead <==> s.runs[r].status == RunFailed
  {
    InitialInvariant(s0);
    RunKeepsDead(s0, acts);
  }

  // ---------- Clean-up, on every path ----------

  const TornDownOnly := [Launched, TornDown]

  const FullCleanup := [Launched, FleetStarted, FleetStopped, IngesterStopped, TornDown]

  predicate Settled(effects: seq<Effect>) {
    effects == [] || effects == TornDownOnly || effects == FullCleanup
  }

  predicate EffectsMatch(s: State) {
    match s.pc
    case At(stage, _, _) =>
      s.effects == (match stage
        case MarkRunning => [] case MarkBuilding => [] case Build => [] case Launch => []
        case AwaitHealth => [Launched] case MarkSubRunning => [Launched] case StartFleet => [Launched]
        case FailTearDown => [Launched]
        case Benchmark => [Launched, FleetStarted] case StopFleet => [Launched, FleetStarted]
        case ShutFleet => [Launched, FleetStarted]
        case StopIngester => [Launched, FleetStarted, FleetStopped]
        case ShutIngester => [Launched, FleetStarted, FleetStopped]
        case Score => [Launched, FleetStarted, FleetStopped, IngesterStopped]
        case TearDown => [Launched, FleetStarted, FleetStopped, IngesterStopped]
        case ShutTearDown => [Launched, FleetStarted, FleetStopped, IngesterStopped]
        case MarkCompleted => FullCleanup case MarkSubCompleted => FullCleanup)
    case Idle => Settled(s.effects)
    case Burying(_) => Settled(s.effects)
    case Loading(_) => s.effects == []
    case LoadingSub(_, _) => s.effects == []
    case _ => s.effects == [] || s.effects == TornDownOnly
  }

  lemma StageKeepsEffects(s: State, o: Outcome)
    requires EffectsMatch(s) && s.pc.At?
    ensures EffectsMatch(WorkerStep(s, o))
  {
  }

  lemma WorkKeepsEffects(s: State, o: Outcome)
    requires EffectsMatch(s) && s.pc != Idle
    ensures EffectsMatch(WorkerStep(s, o))
  {
    if s.pc.At? {
      hide EffectsMatch;
      StageKeepsEffects(s, o);
    }
  }

  lemma {:induction false} EffectsAlwaysMatch(s: State, acts: seq<Action>)
    requires EffectsMatch(s) && Feasible(s, acts)
    ensures EffectsMatch(After(s, acts))
    decreases |acts|
  {
    if acts != [] {
      if acts[0].Work? {
        WorkKeepsEffects(s, acts[0].outcome);
      }
      EffectsAlwaysMatch(Next(s, acts[0]), acts[1..]);
    }
  }

  /** Once a run is done with, however it went, errors of the database and shutdown included:
      a launched container has been torn down exactly once, and a started fleet stopped
      exactly once, before the ingester, itself stopped exactly once, and the tear-down. */
  lemma EveryPathCleansUp(s0: State, acts: seq<Action>)
    requires Initial(s0) && Feasible(s0, acts)
    requires After(s0, acts).pc == Idle
    ensures Settled(After(s0, acts).effects)
  {
    EffectsAlwaysMatch(s0, acts);
  }

  // ---------- Shutdown ----------

  function WorkAll(s: State, outcomes: seq<Outcome>): State
    decreases |outcomes|
  {
    if s.pc == Idle || outcomes == [] then s else WorkAll(WorkerStep(s, outcomes[0]), outcomes[1..])
  }

  /** The shutdown branch writes no status. */
  lemma {:induction false} ShutdownWritesNothing(s: State, outcomes: seq<Outcome>)
    requires s.pc.At? ==> s.pc.stage in {ShutFleet, ShutIngester, ShutTearDown}
    requires s.pc.At? || s.pc.Burying? || s.pc == Idle
    ensures var n := WorkAll(s, outcomes); n.runs == s.runs && n.subs == s.subs
    ensures |outcomes| >= Remaining(s.pc) ==> WorkAll(s, outcomes).pc == Idle
    decreases |outcomes|
  {
    if s.pc != Idle && outcomes != [] {
      WorkAdvances(s, outcomes[0]);
      ShutdownWritesNothing(WorkerStep(s, outcomes[0]), outcomes[1..]);
    }
  }

  /** Shutdown abandons a benchmark, however the calls still made turn out, with its run and
      submission marked as they were: running. */
  lemma ShutdownLeavesRunning(s: State, outcomes: seq<Outcome>)
    requires s.pc.At? && s.pc.stage == Benchmark && |outcomes| >= 4
    ensures var n := WorkAll(WorkerStep(s, ShutsDown), outcomes);
            n.pc == Idle && n.runs == s.runs && n.subs == s.subs
  {
    ShutdownWritesNothing(WorkerStep(s, ShutsDown), outcomes);
  }
}
