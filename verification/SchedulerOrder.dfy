/** No step is attempted, and none first completes, before all its dependencies completed. */
module SchedulerOrder {
  import opened Workflow
  import opened DependencyEngine
  import opened WorkflowRuns
  import opened Backoff
  import opened SchedulerModel
  import opened SchedulerSafety

  predicate Done(log: seq<Event>, key: Key) {
    Succeeded(key) in log
  }

  ghost predicate DepsDone(p: Plan, log: seq<Event>, key: Key) {
    key.step in p.deps && forall d :: d in p.deps[key.step] ==> Done(log, Key(key.run, d))
  }

  predicate IsFailure(e: Event, key: Key) {
    (e.GaveUp? || e.NoAgent?) && e.ticket.key == key
  }

  ghost predicate FailedOnce(log: seq<Event>, key: Key) {
    exists e :: e in log && IsFailure(e, key)
  }

  /** COMPLETED and FAILED are only ever shown for a step that did complete or fail. */
  ghost predicate StatusDone(runs: map<RunId, RunState>, log: seq<Event>) {
    forall r, k :: r in runs && k in runs[r].steps ==>
      && (runs[r].steps[k] == COMPLETED ==> Done(log, Key(r, k)))
      && (runs[r].steps[k] == FAILED ==> FailedOnce(log, Key(r, k)))
  }

  ghost predicate ItemsReady(p: Plan, items: Items, log: seq<Event>) {
    forall i :: i in items ==> DepsDone(p, log, items[i].ticket.key)
  }

  /** The event is an attempt or a success whose dependencies all completed within `before`. */
  predicate IsWork(e: Event) {
    e.Attempted? || e.Succeeded?
  }

  function WorkKey(e: Event): Key
    requires IsWork(e)
  {
    if e.Attempted? then e.ticket.key else e.key
  }

  ghost predicate Ordered(p: Plan, log: seq<Event>) {
    forall n :: 0 <= n < |log| && IsWork(log[n]) ==> DepsDone(p, log[..n], WorkKey(log[n]))
  }

  ghost predicate DepSafe(p: Plan, s: State) {
    StatusDone(s.runs, s.log) && ItemsReady(p, s.items, s.log) && Ordered(p, s.log)
  }

  lemma {:induction false} LogGrows(p: Plan, s: State, e: Event)
    requires DepSafe(p, s)
    requires IsWork(e) ==> DepsDone(p, s.log, WorkKey(e))
    ensures DepSafe(p, Log(s, e))
  {
    var log := s.log + [e];
    assert forall key :: Done(s.log, key) ==> Done(log, key);
    assert forall key :: FailedOnce(s.log, key) ==> FailedOnce(log, key);
    assert forall n :: 0 <= n <= |s.log| ==> log[..n] == s.log[..n];
    assert s.log[..|s.log|] == s.log;
  }

  lemma {:induction false} RecordDone(s: State, log: seq<Event>, key: Key, st: StepStatus)
    requires StatusDone(s.runs, log)
    requires st == COMPLETED ==> Done(log, key)
    requires st == FAILED ==> FailedOnce(log, key)
    ensures StatusDone(Record(s, key, st).runs, log)
  {
    hide Recompute;
  }

  /** Items keep their keys; new ones have their dependencies done. */
  ghost predicate KeysFrom(p: Plan, before: Items, after: Items, log: seq<Event>) {
    forall i :: i in after ==>
      (i in before && after[i].ticket.key == before[i].ticket.key) || DepsDone(p, log, after[i].ticket.key)
  }

  lemma {:induction false} KeysReady(p: Plan, before: Items, after: Items, log: seq<Event>)
    requires ItemsReady(p, before, log) && KeysFrom(p, before, after, log)
    ensures ItemsReady(p, after, log)
  {
    hide DepsDone;
  }

  lemma {:induction false} ReadyIsSafe(p: Plan, s: State, run: RunId)
    requires StatusDone(s.runs, s.log)
    ensures forall k :: k in Ready(p, s, run) ==> DepsDone(p, s.log, Key(run, k))
  {
    if run in s.runs {
      ReadyStepsExact(p.order, p.deps, s.runs[run].steps);
      hide ReadySteps;
      forall k, d | k in Ready(p, s, run) && d in p.deps[k]
        ensures Done(s.log, Key(run, d))
      {
        assert s.runs[run].steps[d] == COMPLETED;
      }
    }
  }

  lemma {:induction false} OfferSafe(p: Plan, s: State, run: RunId, ks: seq<StepId>, mark: bool)
    requires DepSafe(p, s) && forall i :: i in s.items ==> i < s.next
    requires forall k :: k in ks ==> DepsDone(p, s.log, Key(run, k))
    ensures DepSafe(p, Offer(s, run, ks, |ks|, mark))
  {
    var t := Offer(s, run, ks, |ks|, mark);
    OfferItems(s, run, ks, |ks|, mark);
    OfferStatuses(s, run, ks, |ks|, mark);
    hide Offer, DepsDone, Done, Recompute, FailedOnce;
    assert KeysFrom(p, s.items, t.items, s.log) by {
      forall i | i in t.items && i !in s.items
        ensures DepsDone(p, s.log, t.items[i].ticket.key)
      {
        assert ks[i - s.next] in ks;
      }
    }
    KeysReady(p, s.items, t.items, s.log);
    hide KeysFrom, ItemsReady, Ordered, NewItems;
  }

  lemma {:induction false} FailLog(p: Plan, s: State, id: nat)
    requires DepSafe(p, s) && id in s.items
    ensures DepSafe(p, s.(log := DoFail(p, s, id).log))
    ensures s.items[id].ticket.retryCount >= MaxRetries(p, s.items[id].ticket.key.step) ==>
              FailedOnce(DoFail(p, s, id).log, s.items[id].ticket.key)
  {
    var t := s.items[id].ticket;
    hide DepSafe, WithStep, Delay;
    LogGrows(p, s, if t.retryCount < MaxRetries(p, t.key.step) then SleepOf(t) else GaveUp(t));
    assert t.retryCount >= MaxRetries(p, t.key.step) ==> IsFailure(DoFail(p, s, id).log[|s.log|], t.key);
  }

  /** What a task-moving transition may add to the log. */
  lemma {:induction false} OrderLog(p: Plan, s: State, a: Action)
    requires DepSafe(p, s) && Enabled(p, s, a) && MovesTask(a)
    ensures DepSafe(p, s.(log := Apply(p, s, a).log))
    ensures a.Return? ==> Done(Apply(p, s, a).log, s.items[a.id].ticket.key)
    ensures a.Begin? && !a.agentFound ==> FailedOnce(Apply(p, s, a).log, s.items[a.id].ticket.key)
    ensures a.Fail? && s.items[a.id].ticket.retryCount >= MaxRetries(p, s.items[a.id].ticket.key.step) ==>
              FailedOnce(Apply(p, s, a).log, s.items[a.id].ticket.key)
  {
    var item := s.items[a.id];
    assert a.id in s.items && DepsDone(p, s.log, item.ticket.key);
    hide DepSafe, DepsDone, WithStep, Enabled, DoFail, FailedOnce;
    match a
    case Begin(id, agentFound) =>
      LogGrows(p, s, if agentFound then Attempted(item.ticket) else NoAgent(item.ticket));
      assert !agentFound ==> IsFailure(Apply(p, s, a).log[|s.log|], item.ticket.key);
    case Return(id) => LogGrows(p, s, Succeeded(item.ticket.key));
    case Fail(id) =>
      FailLog(p, s, id);
    case Interrupt(id) => LogGrows(p, s, Interrupted(item.ticket));
    case _ =>
  }

  function SleepOf(t: Ticket): Event {
    BackedOff(t, Delay(BACKOFF_SECONDS, BACKOFF_MULTIPLIER, t.retryCount))
  }

  lemma {:induction false} OrderTask(p: Plan, s: State, a: Action)
    requires DepSafe(p, s) && Enabled(p, s, a) && MovesTask(a)
    ensures DepSafe(p, Apply(p, s, a))
  {
    var t := Apply(p, s, a);
    OrderLog(p, s, a);
    TaskAdvances(p, s, a);
    OrderStatus(p, s, a);
    hide DepsDone, WithStep, Apply, StatusDone, Ordered;
    KeysReady(p, s.items, t.items, t.log);
  }

  lemma {:induction false} OrderStatus(p: Plan, s: State, a: Action)
    requires DepSafe(p, s) && Enabled(p, s, a) && MovesTask(a)
    ensures StatusDone(Apply(p, s, a).runs, Apply(p, s, a).log)
  {
    var t, key := Apply(p, s, a), s.items[a.id].ticket.key;
    OrderLog(p, s, a);
    hide DepsDone, WithStep, StatusDone, Ordered, ItemsReady, FailedOnce, Done;
    match a
    case Begin(id, agentFound) => RecordDone(s, t.log, key, if agentFound then RUNNING else FAILED);
    case Return(id) => RecordDone(s, t.log, key, COMPLETED);
    case Fail(id) =>
      if s.items[id].ticket.retryCount >= MaxRetries(p, key.step) {
        RecordDone(s, t.log, key, FAILED);
      }
    case Interrupt(id) => RecordDone(s, t.log, key, SKIPPED);
    case _ =>
  }

  lemma {:induction false} StartedSafe(p: Plan, s: State, run: RunId)
    requires DepSafe(p, s)
    ensures DepSafe(p, s.(runs := s.runs[run := Started(p.deps)]))
  {
    hide ItemsReady, Ordered, Done, FailedOnce;
  }

  lemma {:induction false} OrderExecute(p: Plan, max: nat, s: State, run: RunId)
    requires Shape(p, max, s) && DepSafe(p, s) && Enabled(p, s, Execute(run))
    ensures DepSafe(p, DoExecute(p, s, run))
  {
    hide Shape, DepSafe, Ready, Offer, Started;
    var started := s.(runs := s.runs[run := Started(p.deps)]);
    Below(p, max, s);
    StartedSafe(p, s, run);
    ReadySafe(p, started, run);
    OfferSafe(p, started, run, Ready(p, started, run), false);
  }

  lemma {:induction false} ReadySafe(p: Plan, s: State, run: RunId)
    requires DepSafe(p, s)
    ensures forall k :: k in Ready(p, s, run) ==> DepsDone(p, s.log, Key(run, k))
  {
    hide StatusDone, ItemsReady, Ordered, Ready;
    ReadyIsSafe(p, s, run);
  }

  lemma {:induction false} MovedSafe(p: Plan, s: State, id: nat, place: Place)
    requires DepSafe(p, s) && id in s.items
    ensures DepSafe(p, Move(s, id, place))
  {
    hide DepsDone, StatusDone, Ordered;
  }

  lemma {:induction false} OrderHandled(p: Plan, max: nat, s: State, id: nat)
    requires Shape(p, max, s) && DepSafe(p, s) && Enabled(p, s, Handled(id))
    ensures DepSafe(p, DoHandled(p, s, id))
  {
    hide Shape, DepSafe, ReadySteps, Offer;
    var m, run := Move(s, id, Finished), s.items[id].ticket.key.run;
    Below(p, max, s);
    MovedSafe(p, s, id, Finished);
    ReadySafe(p, m, run);
    OfferSafe(p, m, run, Ready(p, s, run), true);
  }

  /** Transitions that only drop, mark or re-queue items. */
  lemma {:induction false} OrderQueue(p: Plan, s: State, a: Action)
    requires DepSafe(p, s) && Enabled(p, s, a)
    requires a.Dequeue? || a.Acquire? || a.Release? || a.Wake?
    ensures DepSafe(p, Apply(p, s, a))
  {
    var t := Apply(p, s, a);
    assert DepsDone(p, s.log, s.items[a.id].ticket.key);
    LogGrows(p, s, Dropped(s.items[a.id].ticket));
    hide DepsDone, StatusDone, Ordered;
    var l := s.(log := t.log);
    assert KeysFrom(p, l.items, t.items, l.log);
    hide ItemsReady, KeysFrom;
    KeysReady(p, l.items, t.items, l.log);
  }

  lemma {:induction false} OrderCancel(p: Plan, s: State, a: Action)
    requires DepSafe(p, s) && Enabled(p, s, a) && (a.CancelStep? || a.CancelRun?)
    ensures DepSafe(p, Apply(p, s, a))
  {
    var t := Apply(p, s, a);
    var l := s.(log := t.log);
    if a.CancelRun? {
      LogGrows(p, s, RunWithdrawn(a.run));
    }
    assert StatusDone(t.runs, t.log) by {
      hide ItemsReady, Ordered, DepsDone, Done;
    }
    hide DepsDone, StatusDone, Ordered;
    assert KeysFrom(p, l.items, t.items, t.log);
    hide ItemsReady, KeysFrom;
    KeysReady(p, l.items, t.items, t.log);
  }

  lemma {:induction false} OrderStep(p: Plan, max: nat, s: State, a: Action)
    requires Shape(p, max, s) && DepSafe(p, s) && Enabled(p, s, a)
    ensures DepSafe(p, Apply(p, s, a))
  {
    hide Shape, DepSafe, DoExecute, DoHandled;
    if MovesTask(a) {
      OrderTask(p, s, a);
    } else if a.CancelStep? || a.CancelRun? {
      OrderCancel(p, s, a);
    } else if a.Execute? {
      OrderExecute(p, max, s, a.run);
    } else if a.Handled? {
      OrderHandled(p, max, s, a.id);
    } else {
      OrderQueue(p, s, a);
    }
  }
}
