/** The gate that waits for somebody on the dashboard to decide
    (orchestrator/harness/runs.py, api_gateway/mcp_approvals.py). */
module DashboardGate {
  import opened Options
  import opened ApprovalStore
  import opened ApprovalLedger

  /** What a poll of the wait makes of the status it sees; `None` goes on waiting. */
  function Poll(s: Status): Option<Outcome> {
    match s
    case Running => Some(APPROVED)
    case Completed => Some(APPROVED)
    case Rejected => Some(REJECTED)
    case TimedOut => Some(TIMED_OUT)
    case Canceled => Some(TIMED_OUT)
    case _ => None
  }

  /** How the wait ends, from poll `i` on; `now` is the status once the window is closed. */
  function Waited(seen: seq<Status>, i: nat, now: Status): Outcome
    requires i <= |seen|
    decreases |seen| - i
  {
    if i == |seen| then (if IsApproved(now) then APPROVED else TIMED_OUT)
    else if Poll(seen[i]).Some? then Poll(seen[i]).value
    else Waited(seen, i + 1, now)
  }

  /** The first poll that sees a decided hold ends the wait with what it saw; when none did, the
      status at the end of the window counts. */
  lemma {:induction false} WaitMeans(seen: seq<Status>, i: nat, now: Status)
    requires i <= |seen| && forall j :: 0 <= j < i ==> seen[j] in {Awaiting, Queued, Status.Failed}
    ensures var outcome, late := DashboardOutcome(seen, now), if now == Canceled then CANCELLED else TIMED_OUT;
            && (i < |seen| && seen[i] in {Status.Running, Status.Completed} ==> outcome == APPROVED)
            && (i < |seen| && seen[i] == Status.Rejected ==> outcome == REJECTED)
            && (i < |seen| && seen[i] in {TimedOut, Canceled} ==> outcome == late)
            && (i == |seen| ==> outcome == if now in {Status.Running, Status.Completed} then APPROVED else late)
  {
    WaitedOn(seen, 0, i, now);
  }

  lemma {:induction false} WaitedOn(seen: seq<Status>, k: nat, i: nat, now: Status)
    requires k <= i <= |seen| && forall j :: k <= j < i ==> Poll(seen[j]).None?
    ensures Waited(seen, k, now) == Waited(seen, i, now)
    decreases i - k
  {
    if k < i {
      WaitedOn(seen, k + 1, i, now);
    }
  }

  predicate NoneSeen(seen: seq<Status>) {
    forall i :: 0 <= i < |seen| ==> Poll(seen[i]).None?
  }

  /** The dashboard gate's outcome: a wait that a cancelled hold ended is not a timeout. */
  function DashboardOutcome(seen: seq<Status>, now: Status): Outcome {
    if Waited(seen, 0, now) == TIMED_OUT && now == Canceled then CANCELLED else Waited(seen, 0, now)
  }

  /** `await_approval_decision` and the dashboard gate's reading of it, given the statuses its
      polls saw. After the last one the window has closed, or the waiter was cancelled: then
      the hold is closed too, and nothing is returned. */
  method AwaitDecision(ledger: HoldLedger, id: HoldId, seen: seq<Status>, cancelled: bool)
    returns (outcome: Option<Outcome>)
    requires id in ledger.store.runs
    modifies ledger.store
    ensures ledger.store.runs ==
            if NoneSeen(seen) then
              WithClosed(old(ledger.store.runs), id, if cancelled then CANCELLED else TIMED_OUT, LOCAL_ELICITATION)
            else old(ledger.store.runs)
    ensures outcome == if NoneSeen(seen) && cancelled then None
                       else Some(DashboardOutcome(seen, ledger.store.runs[id].status))
    ensures ledger.store.runs[id].status == Awaiting ==> !NoneSeen(seen)
  {
    ghost var final :=
      if NoneSeen(seen) then Closed(ledger.store.runs[id], TIMED_OUT, LOCAL_ELICITATION) else ledger.store.runs[id];
    var wait := TIMED_OUT;
    var i := 0;
    while i < |seen|
      invariant i <= |seen| && forall j :: 0 <= j < i ==> Poll(seen[j]).None?
      invariant Waited(seen, 0, final.status) == Waited(seen, i, final.status)
    {
      if Poll(seen[i]).Some? {
        wait := Poll(seen[i]).value;
        break;
      }
      i := i + 1;
    }
    if i == |seen| {
      if ledger.store.runs[id].status == Awaiting {
        var reply := ledger.store.Transition(id, if cancelled then Canceled else TimedOut);
      }
      if cancelled {
        return None;
      }
      wait := if IsApproved(ledger.store.runs[id].status) then APPROVED else TIMED_OUT;
    }
    return Some(if wait == TIMED_OUT && ledger.store.runs[id].status == Canceled then CANCELLED else wait);
  }

  lemma {:induction false} WaitedSettled(seen: seq<Status>, i: nat, now: Status)
    requires i <= |seen| && forall j :: 0 <= j < |seen| && seen[j] != Awaiting ==> seen[j] == now
    requires now != Queued && now != Failed && now != Awaiting
    ensures Waited(seen, i, now) ==
            if IsApproved(now) then APPROVED
            else if exists j :: i <= j < |seen| && seen[j] != Awaiting then Poll(now).value
            else TIMED_OUT
    decreases |seen| - i
  {
    if i == |seen| {
    } else {
      WaitedSettled(seen, i + 1, now);
    }
  }

  /** The dashboard gate agrees with the ledger except in exactly one case: a rejection that
      lands after the last poll and before the window ends is on record as a rejection and
      reported as a timeout. */
  lemma {:induction false} DashboardAgreement(trace: seq<Runs>, ops: seq<Op>, times: seq<real>, polls: seq<nat>,
                           n: nat, id: HoldId, seen: seq<Status>)
    requires IsHistory(trace, ops, times) && n < |trace| && id in trace[n] && |seen| == |polls|
    requires forall i :: 0 <= i < |polls| ==> polls[i] <= n && id in trace[polls[i]] && seen[i] == trace[polls[i]][id].status
    ensures var now := Closed(trace[n][id], TIMED_OUT, LOCAL_ELICITATION).status;
            DashboardOutcome(seen, now) == OutcomeOn(now) <==> !(now == Status.Rejected && NoneSeen(seen))
  {
    var now := Closed(trace[n][id], TIMED_OUT, LOCAL_ELICITATION).status;
    AlwaysResting(trace, ops, times, n);
    forall i | 0 <= i < |seen|
      ensures seen[i] == Awaiting || seen[i] == now
    {
      DecidedOnce(trace, ops, times, polls[i], n, id);
      AlwaysResting(trace, ops, times, polls[i]);
    }
    hide IsHistory;
    WaitedSettled(seen, 0, now);
  }

  /** The exception happens: a poll sees the hold pending, then the dashboard rejects it, then
      the window ends. */
  lemma {:induction false} LateRejection(id: HoldId, person: Approver) returns (trace: seq<Runs>, ops: seq<Op>,
            times: seq<real>)
    ensures IsHistory(trace, ops, times) && |trace| == 3 && id in trace[1] && id in trace[2]
    ensures trace[1][id].status == Awaiting && Read(trace[2][id]) == Some(REJECTED)
    ensures DashboardOutcome([trace[1][id].status], trace[2][id].status) == TIMED_OUT
  {
    var ask, decide := Open(id, None, 1.0), Decide(id, false, person);
    var none: Runs := map[];
    var held := Effect(none, ask, 0.0);
    trace, ops, times := [none, held, Effect(held, decide, 0.0)], [ask, decide], [0.0, 0.0];
    assert held == map[id := Opened(None, 1.0, 0.0)];
    assert Expired(held, 0.0) == held;
    assert Waited([held[id].status], 1, Status.Rejected) == TIMED_OUT;
  }
}
