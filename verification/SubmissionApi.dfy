/** The API handlers as programs: each, when nothing comes between its statements, makes
    exactly the lifecycle's steps for it. */
module SubmissionApi {
  import opened Lifecycle

  datatype Response = Created | NoContent | NotFound | Conflict | InternalError

  /** Which calls of a request get through to the database and to Redis. */
  datatype Calls = Calls(check: bool, write: bool, push: bool)

  class SubmissionHandler {
    var subs: map<Id, SubStatus>
    var runs: map<Id, Run>
    var queue: seq<Id>

    ghost predicate Agrees(s: State)
      reads this
    {
      s.subs == subs && s.runs == runs && s.queue == queue
    }

    /** LPUSH: the newest run is at the left end. */
    method EnqueueRun(r: Id, ok: bool)
      modifies this`queue
      ensures queue == if ok then [r] + old(queue) else old(queue)
    {
      if ok {
        queue := [r] + queue;
      }
    }

    /** A run is created exactly for an existing submission in a runnable state, whose own status
        stays as it was; a failed push is only logged and leaves the run queued in the table alone. */
    method TriggerRun(sub: Id, r: Id, calls: Calls, ghost s: State) returns (response: Response)
      requires Agrees(s) && r !in s.everRuns
      modifies this`runs, this`queue
      ensures response == (if !calls.check then InternalError
                           else if sub !in subs then NotFound
                           else if subs[sub] != Pending && subs[sub] != Ready && subs[sub] != SubCompleted then Conflict
                           else if calls.write then Created else InternalError)
      ensures runs == if response == Created then old(runs)[r := Run(sub, Queued)] else old(runs)
      ensures queue == if response == Created && calls.push then [r] + old(queue) else old(queue)
      ensures if response == Created then
                var inserted := Next(Next(s, TriggerCheck(sub)), TriggerInsert(sub, r));
                Agrees(Next(inserted, if calls.push then TriggerEnqueue(r) else TriggerEnqueueFails(r)))
              else Agrees(s)
    {
      if !calls.check {
        return InternalError;
      }
      if sub !in subs {
        return NotFound;
      }
      if subs[sub] != Pending && subs[sub] != Ready && subs[sub] != SubCompleted {
        return Conflict;
      }
      if !calls.write {
        return InternalError;
      }
      runs := runs[r := Run(sub, Queued)];
      EnqueueRun(r, calls.push);
      return Created;
    }

    /** Only a running submission is refused; its runs go with it, queued ones included. */
    method Delete(sub: Id, calls: Calls, ghost s: State) returns (response: Response)
      requires Agrees(s)
      modifies this`subs, this`runs
      ensures response == (if !calls.check then InternalError
                           else if sub !in old(subs) then NotFound
                           else if old(subs)[sub].SubRunning? then Conflict
                           else if calls.write then NoContent else InternalError)
      ensures subs == if response == NoContent then old(subs) - {sub} else old(subs)
      ensures forall r :: r in runs <==> r in old(runs) && (response == NoContent ==> old(runs)[r].sub != sub)
      ensures forall r :: r in runs ==> runs[r] == old(runs)[r]
      ensures Agrees(if response == NoContent then Next(Next(s, DeleteCheck(sub)), DeleteRow(sub)) else s)
    {
      if !calls.check {
        return InternalError;
      }
      if sub !in subs {
        return NotFound;
      }
      if subs[sub] == SubRunning {
        return Conflict;
      }
      if !calls.write {
        return InternalError;
      }
      subs := subs - {sub};
      runs := map r | r in runs && runs[r].sub != sub :: runs[r];
      return NoContent;
    }
  }
}
