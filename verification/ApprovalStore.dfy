/** The approval store and its validated status machine (orchestrator/harness/runs.py). */
module ApprovalStore {
  import opened Options

  datatype HoldId = HoldId(name: string)

  datatype Status = Queued | Running | Awaiting | Completed | Failed | Rejected | Canceled | TimedOut

  datatype Approver = Approver(actor: string, verified: bool)

  /** One stored run; `key` and `expires` make a hold durable. */
  datatype Run = Run(status: Status, created: real, deadline: Option<real>, approver: Option<Approver>,
                     key: Option<string>, expires: Option<real>, consumed: bool)

  type Runs = map<HoldId, Run>

  /** `_TRANSITIONS`: anything not listed is refused. */
  predicate Allowed(current: Status, target: Status) {
    match current
    case Queued => target == Running || target == Canceled
    case Running => target == Awaiting || target == Completed || target == Failed || target == Canceled
    case Awaiting => target == Running || target == Rejected || target == Canceled || target == TimedOut
    case _ => false
  }

  predicate Terminal(s: Status) {
    s == Completed || s == Failed || s == Rejected || s == Canceled || s == TimedOut
  }

  /** Exactly the terminal statuses have no way out. */
  lemma {:induction false} TerminalIsFinal(s: Status)
    ensures Terminal(s) <==> forall target :: !Allowed(s, target)
  {
    assert s == Queued ==> Allowed(s, Running);
    assert s == Running ==> Allowed(s, Awaiting);
    assert s == Awaiting ==> Allowed(s, Rejected);
  }

  /** What may lead to each status. */
  lemma {:induction false} WaysInto(s: Status)
    ensures Allowed(s, Running) <==> s == Queued || s == Awaiting
    ensures Allowed(s, Awaiting) <==> s == Running
    ensures Allowed(s, Completed) <==> s == Running
    ensures Allowed(s, Failed) <==> s == Running
    ensures Allowed(s, Rejected) <==> s == Awaiting
    ensures Allowed(s, TimedOut) <==> s == Awaiting
    ensures Allowed(s, Canceled) <==> !Terminal(s)
    ensures !Allowed(s, Queued)
    ensures Terminal(s) <==> s != Queued && s != Running && s != Awaiting
  {
  }

  predicate Overdue(r: Run, now: real) {
    r.status == Awaiting && r.deadline.Some? && r.deadline.value <= now
  }

  /** `expire_overdue` as a function: every overdue pending run times out, no other changes. */
  function Expired(runs: Runs, now: real): Runs {
    map id | id in runs :: if Overdue(runs[id], now) then runs[id].(status := TimedOut) else runs[id]
  }

  datatype StoreReply = Done | NotFound | Illegal

  datatype Decision = APPROVE | REJECT | RETRY | REWORK

  class InMemoryRunStore {
    var runs: Runs

    constructor ()
      ensures runs == map[]
    {
      runs := map[];
    }

    /** A fresh id, in status queued. */
    method Create(id: HoldId, key: Option<string>, expires: Option<real>, now: real)
      requires id !in runs
      modifies this
      ensures runs == old(runs)[id := Run(Queued, now, None, None, key, expires, false)]
    {
      runs := runs[id := Run(Queued, now, None, None, key, expires, false)];
    }

    /** Moves exactly along the allowed edges, and changes nothing when it refuses. */
    method Transition(id: HoldId, target: Status) returns (r: StoreReply)
      modifies this
      ensures r == NotFound <==> id !in old(runs)
      ensures r == Done <==> id in old(runs) && Allowed(old(runs)[id].status, target)
      ensures runs == if r == Done then old(runs)[id := old(runs)[id].(status := target)] else old(runs)
    {
      if id !in runs {
        return NotFound;
      }
      if !Allowed(runs[id].status, target) {
        return Illegal;
      }
      runs := runs[id := runs[id].(status := target)];
      return Done;
    }

    method RequestApproval(id: HoldId, deadline: real) returns (r: StoreReply)
      modifies this
      ensures r == Done <==> id in old(runs) && old(runs)[id].status == Running
      ensures runs == if r == Done then old(runs)[id := old(runs)[id].(status := Awaiting, deadline := Some(deadline))]
                      else old(runs)
    {
      r := Transition(id, Awaiting);
      if r == Done {
        runs := runs[id := runs[id].(deadline := Some(deadline))];
      }
    }

    /** The answer and who gave it; only a pending approval takes one. Everything but a
        rejection, a retry or rework included, puts the run back to running. */
    method SubmitApproval(id: HoldId, decision: Decision, approver: Approver) returns (r: StoreReply)
      modifies this
      ensures r == NotFound <==> id !in old(runs)
      ensures r == Done <==> id in old(runs) && old(runs)[id].status == Awaiting
      ensures runs == if r != Done then old(runs)
                      else old(runs)[id := old(runs)[id].(status := if decision == REJECT then Rejected else Running,
                                                          approver := Some(approver))]
    {
      if id !in runs {
        return NotFound;
      }
      if runs[id].status != Awaiting {
        return Illegal;
      }
      r := Transition(id, if decision == REJECT then Rejected else Running);
      runs := runs[id := runs[id].(approver := Some(approver))];
    }

    /** The backstop for a waiter that died. */
    method ExpireOverdue(now: real)
      modifies this
      ensures runs == Expired(old(runs), now)
      ensures runs.Keys == old(runs).Keys
      ensures forall id :: id in runs ==>
                runs[id] == if old(runs)[id].status == Awaiting && old(runs)[id].deadline.Some?
                               && old(runs)[id].deadline.value <= now
                            then old(runs)[id].(status := TimedOut) else old(runs)[id]
    {
      ghost var before := runs;
      var left := runs.Keys;
      while left != {}
        invariant left <= before.Keys == runs.Keys
        invariant forall id :: id in left ==> runs[id] == before[id]
        invariant forall id :: id in before && id !in left ==> runs[id] == Expired(before, now)[id]
      {
        var id :| id in left;
        if Overdue(runs[id], now) {
          var r := Transition(id, TimedOut);
        }
        left := left - {id};
      }
    }
  }
}
