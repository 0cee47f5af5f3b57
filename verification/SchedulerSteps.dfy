/** What single transitions of the scheduler do, read off the state before them. */
module SchedulerSteps {
  import opened Sequences
  import opened Workflow
  import opened DependencyEngine
  import opened WorkflowRuns
  import opened Backoff
  import opened SchedulerModel
  import opened SchedulerSafety
  import opened SchedulerTheorems

  // ----- Offering ready steps ---------------------------------------------------------

  /** Unstarted, with nothing left to wait for. */
  predicate Due(p: Plan, steps: map<StepId, StepStatus>, k: StepId) {
    && k in p.deps && k in steps && (steps[k] == PENDING || steps[k] == WAITING || steps[k] == READY)
    && forall d :: d in p.deps[k] ==> d in steps && steps[d] == COMPLETED
  }

  lemma {:induction false} ReadyMeans(p: Plan, s: State, run: RunId)
    requires WellFormed(p) && run in s.runs
    ensures NoDup(Ready(p, s, run))
    ensures forall k :: k in Ready(p, s, run) <==> Due(p, s.runs[run].steps, k)
  {
    ReadyStepsExact(p.order, p.deps, s.runs[run].steps);
    hide ReadySteps;
    assert forall k :: k in p.order <==> k in p.deps by {
      assert forall k :: k in p.order <==> k in Elements(p.order);
    }
  }

  /** The tickets of `after` that are not in `before`: exactly one for each of these steps, fresh
      and queued. */
  ghost predicate OnePerStep(before: Items, after: Items, run: RunId, ks: set<StepId>) {
    && (forall i :: i in before ==> i in after && after[i] == before[i])
    && (forall i :: i in after && i !in before ==>
          after[i].ticket.key.step in ks && after[i] == Item(Ticket(Key(run, after[i].ticket.key.step), 0, i), Queued, false))
    && (forall k :: k in ks ==> exists i :: i in after && i !in before && after[i].ticket.key.step == k)
    && (forall i, j :: i in after && i !in before && j in after && j !in before ==>
          (after[i].ticket.key.step == after[j].ticket.key.step ==> i == j))
  }

  lemma {:induction false} NewTickets(s: State, t: State, run: RunId, ks: seq<StepId>)
    requires NewItems(s, t, run, ks, |ks|) && NoDup(ks) && forall i :: i in s.items ==> i < s.next
    ensures OnePerStep(s.items, t.items, run, Elements(ks))
  {
    forall k | k in Elements(ks)
      ensures exists i :: i in t.items && i !in s.items && t.items[i].ticket.key.step == k
    {
      var n :| 0 <= n < |ks| && ks[n] == k;
      assert s.next + n in t.items && s.next + n !in s.items;
    }
  }

  lemma {:induction false} NewMarks(s: State, t: State, run: RunId, ks: seq<StepId>)
    requires run in s.runs && NewStatuses(s, t, run, ks, |ks|, true)
    ensures t.runs.Keys == s.runs.Keys && t.runs[run].steps.Keys == s.runs[run].steps.Keys
    ensures forall r :: r in s.runs && r != run ==> t.runs[r] == s.runs[r]
    ensures forall k :: k in s.runs[run].steps ==>
              t.runs[run].steps[k] == if k in ks then READY else s.runs[run].steps[k]
  {
    assert ks[..|ks|] == ks;
    hide Recompute;
  }

  /** In every reachable state the handler of a success queues exactly one ticket for each step of
      its run that is unstarted and has only completed dependencies, and shows it as ready. No
      other status changes, no other run, and no other ticket but that of its finished task. */
  lemma {:induction false} HandlerOffers(p: Plan, max: nat, s: State, id: nat, t: State) returns (due: set<StepId>)
    requires WellFormed(p) && Reachable(p, max, s) && Enabled(p, s, Handled(id)) && t == Apply(p, s, Handled(id))
    ensures s.items[id].ticket.key.run in s.runs && t.runs.Keys == s.runs.Keys
    ensures forall k :: k in due <==> Due(p, s.runs[s.items[id].ticket.key.run].steps, k)
    ensures OnePerStep(s.items[id := s.items[id].(place := Finished)], t.items, s.items[id].ticket.key.run, due)
    ensures forall r :: r in s.runs && r != s.items[id].ticket.key.run ==> t.runs[r] == s.runs[r]
    ensures var before, after := s.runs[s.items[id].ticket.key.run].steps, t.runs[s.items[id].ticket.key.run].steps;
            after.Keys == before.Keys && forall k :: k in before ==> after[k] == if k in due then READY else before[k]
    ensures t.active == s.active && t.tombstones == s.tombstones && t.permits == s.permits && t.log == s.log
  {
    ReachableInvariant(p, max, s);
    Unfold(p, max, s);
    var run, ready := s.items[id].ticket.key.run, Ready(p, s, s.items[id].ticket.key.run);
    due := Elements(ready);
    assert forall k :: k in due <==> k in ready;
    hide *;
    HandlerParts(p, max, s, id, t);
    ReadyMeans(p, s, run);
    NewTickets(Move(s, id, Finished), t, run, ready);
    NewMarks(Move(s, id, Finished), t, run, ready);
  }

  lemma {:induction false} HandlerParts(p: Plan, max: nat, s: State, id: nat, t: State)
    requires WellFormed(p) && Shape(p, max, s) && Enabled(p, s, Handled(id)) && t == Apply(p, s, Handled(id))
    ensures id in s.items
    ensures var run, mid := s.items[id].ticket.key.run, Move(s, id, Finished);
            var ready := Ready(p, s, run);
            && run in s.runs && s.runs[run].steps.Keys == p.deps.Keys
            && NewItems(mid, t, run, ready, |ready|) && NewStatuses(mid, t, run, ready, |ready|, true)
            && mid.items == s.items[id := s.items[id].(place := Finished)] && mid.runs == s.runs
            && (forall i :: i in mid.items ==> i < mid.next)
            && t.active == s.active && t.tombstones == s.tombstones && t.permits == s.permits && t.log == s.log
  {
    KnownItem(p, max, s, id);
    Below(p, max, s);
    var run := s.items[id].ticket.key.run;
    assert RunsOk(p, s.runs);
    hide Offer, Ready, NewItems, NewStatuses, Shape;
    var ready := Ready(p, s, run);
    OfferItems(Move(s, id, Finished), run, ready, |ready|, true);
    OfferStatuses(Move(s, id, Finished), run, ready, |ready|, true);
  }

  /** In every reachable state a new run starts with exactly the steps that list no dependency
      ready and queued, once each, and all others waiting. */
  lemma {:induction false} StartOffers(p: Plan, max: nat, s: State, run: RunId, t: State) returns (due: set<StepId>)
    requires WellFormed(p) && Reachable(p, max, s) && Enabled(p, s, Execute(run)) && t == Apply(p, s, Execute(run))
    ensures run !in s.runs && t.runs.Keys == s.runs.Keys + {run} && forall r :: r in s.runs ==> t.runs[r] == s.runs[r]
    ensures t.runs[run].status == RunRunning && t.runs[run].steps.Keys == p.deps.Keys
    ensures forall k :: k in p.deps ==> t.runs[run].steps[k] == if p.deps[k] == [] then READY else WAITING
    ensures forall k :: k in due <==> k in p.deps && p.deps[k] == []
    ensures OnePerStep(s.items, t.items, run, due)
    ensures t.active == s.active && t.tombstones == s.tombstones && t.permits == s.permits && t.log == s.log
  {
    ReachableInvariant(p, max, s);
    Unfold(p, max, s);
    var started := s.(runs := s.runs[run := Started(p.deps)]);
    var ready := Ready(p, started, run);
    due := Elements(ready);
    assert forall k :: k in due <==> k in ready;
    hide *;
    StartParts(p, max, s, run, t);
    ReadyMeans(p, started, run);
    StartedReady(p);
    NewTickets(started, t, run, ready);
  }

  lemma {:induction false} StartedReady(p: Plan)
    requires WellFormed(p)
    ensures var steps := Started(p.deps).steps;
            && Started(p.deps).status == RunRunning && steps.Keys == p.deps.Keys
            && (forall k :: k in p.deps ==> steps[k] == if p.deps[k] == [] then READY else WAITING)
            && forall k :: Due(p, steps, k) <==> k in p.deps && p.deps[k] == []
  {
    forall k | k in p.deps && p.deps[k] != []
      ensures !Due(p, Started(p.deps).steps, k)
    {
      assert p.deps[k][0] in p.deps[k];
    }
  }

  lemma {:induction false} StartParts(p: Plan, max: nat, s: State, run: RunId, t: State)
    requires WellFormed(p) && Shape(p, max, s) && Enabled(p, s, Execute(run)) && t == Apply(p, s, Execute(run))
    ensures var started := s.(runs := s.runs[run := Started(p.deps)]);
            var ready := Ready(p, started, run);
            && run !in s.runs && t.runs == started.runs
            && t.active == s.active && t.tombstones == s.tombstones && t.permits == s.permits && t.log == s.log
            && NewItems(started, t, run, ready, |ready|)
            && forall i :: i in s.items ==> i < s.next
  {
    Below(p, max, s);
    hide Offer, Ready, NewItems, Shape, Started;
    var started := s.(runs := s.runs[run := Started(p.deps)]);
    var ready := Ready(p, started, run);
    OfferItems(started, run, ready, |ready|, false);
    OfferStatuses(started, run, ready, |ready|, false);
  }

  // ----- The history ------------------------------------------------------------------

  /** What each transition adds to the history: the event of that name, of the ticket it is
      about; a back-off with the delay of 1, 2, 4, ... seconds its retry count stands for. */
  lemma {:induction false} LogMeans(p: Plan, s: State, a: Action)
    requires Enabled(p, s, a)
    ensures var added := Apply(p, s, a).log;
            match a
            case CancelRun(run) => added == s.log + [RunWithdrawn(run)]
            case Dequeue(id) => added == if s.items[id].ticket.key in s.tombstones then s.log + [Dropped(s.items[id].ticket)] else s.log
            case Begin(id, found) => added == s.log + [if found then Attempted(s.items[id].ticket) else NoAgent(s.items[id].ticket)]
            case Return(id) => added == s.log + [Succeeded(s.items[id].ticket.key)]
            case Fail(id) =>
              var t := s.items[id].ticket;
              added == s.log + [if t.retryCount < MaxRetries(p, t.key.step)
                                then BackedOff(t, Delay(1.0, 2.0, t.retryCount)) else GaveUp(t)]
            case Interrupt(id) => added == s.log + [Interrupted(s.items[id].ticket)]
            case _ => added == s.log
  {
    hide Delay, WithStep, Ready, Started;
    match a
    case Execute(run) =>
      OfferLog(s.(runs := s.runs[run := Started(p.deps)]), run, Ready(p, s.(runs := s.runs[run := Started(p.deps)]), run), false);
    case Handled(id) =>
      OfferLog(Move(s, id, Finished), s.items[id].ticket.key.run, Ready(p, s, s.items[id].ticket.key.run), true);
    case _ =>
  }

  lemma {:induction false} OfferLog(s: State, run: RunId, ks: seq<StepId>, mark: bool)
    ensures Offer(s, run, ks, |ks|, mark).log == s.log
  {
    OfferLogOf(s, run, ks, |ks|, mark);
  }

  lemma {:induction false} OfferLogOf(s: State, run: RunId, ks: seq<StepId>, n: nat, mark: bool)
    requires n <= |ks|
    ensures Offer(s, run, ks, n, mark).log == s.log
    decreases n
  {
    hide WithStep;
    if n > 0 {
      OfferLogOf(s, run, ks, n - 1, mark);
    }
  }
}
