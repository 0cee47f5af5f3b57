/** The step scheduler as a transition system (orchestrator/scheduler.py).

    Between two suspension points a coroutine runs alone, so each such stretch is one
    transition. A `ScheduledStep` is followed through the places it passes: the queue, the
    dispatch loop's hand, and the suspension points of `_execute_step`. */
module SchedulerModel {
  import opened Sequences
  import opened Workflow
  import opened Digraph
  import opened DependencyEngine
  import opened WorkflowRuns
  import opened Backoff

  /** What the scheduler knows of its dependency graph. */
  datatype Plan = Plan(order: seq<StepId>, deps: Deps, retryMax: map<StepId, int>)

  ghost predicate WellFormed(p: Plan) {
    && NoDup(p.order) && Elements(p.order) == p.deps.Keys == p.retryMax.Keys
    && Closed(p.deps)
  }

  function MaxRetries(p: Plan, k: StepId): int {
    if k in p.retryMax then p.retryMax[k] else 0
  }

  datatype Key = Key(run: RunId, step: StepId)

  /** One queued execution; `chain` names the enqueueing that its retries descend from. */
  datatype Ticket = Ticket(key: Key, retryCount: nat, chain: nat)

  /** Where a ticket is. From `Launched` to `Finished` it has a task, which holds a permit:
      also while it sleeps before a retry, and until the task's done callback has run. */
  datatype Place =
    | Queued      // in the priority queue
    | Held        // taken by the loop, waiting for a permit
    | Launched    // task created, not yet running
    | Announcing  // RUNNING recorded, publishing AGENT_TASK_STARTED
    | Working     // inside the agent
    | Reporting   // COMPLETED recorded, publishing AGENT_TASK_COMPLETED
    | Failing     // FAILED recorded, publishing AGENT_TASK_FAILED
    | Sleeping    // backing off before a retry
    | Finished    // task done, done callback not yet run

  predicate IsTask(place: Place) {
    place != Queued && place != Held
  }

  datatype Item = Item(ticket: Ticket, place: Place, cancelRequested: bool)

  /** The history the properties speak about; the program does not store it. */
  datatype Event =
    | Attempted(ticket: Ticket)               // an attempt recorded RUNNING
    | BackedOff(ticket: Ticket, delay: real)  // an attempt failed and the ticket sleeps
    | Succeeded(key: Key)                     // COMPLETED recorded
    | GaveUp(ticket: Ticket)                  // a timeout or exception recorded FAILED
    | NoAgent(ticket: Ticket)                 // FAILED recorded because no agent is registered
    | Dropped(ticket: Ticket)                 // a tombstone took the entry out of the queue
    | Interrupted(ticket: Ticket)             // a CancelledError reached the coroutine
    | RunWithdrawn(run: RunId)                // cancel_run

  datatype State = State(
    runs: map<RunId, RunState>,
    items: map<nat, Item>,
    next: nat,
    active: map<Key, nat>,
    tombstones: set<Key>,
    permits: nat,
    log: seq<Event>)

  function Initial(maxConcurrency: nat): State {
    State(map[], map[], 0, map[], {}, maxConcurrency, [])
  }

  // ----- Building blocks --------------------------------------------------------------

  function Put(s: State, t: Ticket): State {
    s.(items := s.items[s.next := Item(t, Queued, false)], next := s.next + 1)
  }

  function Move(s: State, id: nat, place: Place): State
    requires id in s.items
  {
    s.(items := s.items[id := s.items[id].(place := place)])
  }

  function Drop(s: State, id: nat): State {
    s.(items := map i | i in s.items && i != id :: s.items[i])
  }

  function Record(s: State, key: Key, st: StepStatus): State {
    if key.run in s.runs then s.(runs := s.runs[key.run := WithStep(s.runs[key.run], key.step, st)]) else s
  }

  function Log(s: State, e: Event): State {
    s.(log := s.log + [e])
  }

  /** Enqueue the first `n` of `ks`; `mark` records each as READY first. */
  function Offer(s: State, run: RunId, ks: seq<StepId>, n: nat, mark: bool): State
    requires n <= |ks|
  {
    if n == 0 then s
    else
      var before := Offer(s, run, ks, n - 1, mark);
      var marked := if mark then Record(before, Key(run, ks[n - 1]), READY) else before;
      Put(marked, Ticket(Key(run, ks[n - 1]), 0, marked.next))
  }

  /** `get_ready_steps` on one run. */
  function Ready(p: Plan, s: State, run: RunId): seq<StepId> {
    if run in s.runs then ReadySteps(p.order, p.deps, s.runs[run].steps) else []
  }

  // ----- Transitions ------------------------------------------------------------------

  datatype Action =
    | Execute(run: RunId)              // start_run, then execute_run
    | CancelStep(key: Key)
    | CancelRun(run: RunId)
    | Dequeue(id: nat)
    | Acquire(id: nat)
    | Begin(id: nat, agentFound: bool)
    | Announced(id: nat)
    | Return(id: nat)                  // the agent returned
    | Handled(id: nat)                 // _schedule_ready_dependents
    | Fail(id: nat)                    // timeout or exception
    | Published(id: nat)
    | Wake(id: nat)
    | Interrupt(id: nat)               // CancelledError is delivered
    | Release(id: nat)                 // the done callback

  predicate At(s: State, id: nat, place: Place) {
    id in s.items && s.items[id].place == place
  }

  predicate Enabled(p: Plan, s: State, a: Action) {
    match a
    case Execute(run) => run !in s.runs
    case CancelStep(key) => true
    case CancelRun(run) => run in s.runs
    case Dequeue(id) => At(s, id, Queued) && forall i :: i in s.items ==> s.items[i].place != Held
    case Acquire(id) => At(s, id, Held) && s.permits > 0
    case Begin(id, _) => At(s, id, Launched)
    case Announced(id) => At(s, id, Announcing)
    case Return(id) => At(s, id, Working)
    case Handled(id) => At(s, id, Reporting)
    case Fail(id) => At(s, id, Working)
    case Published(id) => At(s, id, Failing)
    case Wake(id) => At(s, id, Sleeping)
    case Interrupt(id) =>
      && id in s.items && s.items[id].cancelRequested
      && IsTask(s.items[id].place) && s.items[id].place != Finished
    case Release(id) => At(s, id, Finished)
  }

  function DoExecute(p: Plan, s: State, run: RunId): State {
    var started := s.(runs := s.runs[run := Started(p.deps)]);
    var ready := Ready(p, started, run);
    Offer(started, run, ready, |ready|, false)
  }

  function DoCancelStep(s: State, key: Key): State {
    var marked := s.(tombstones := s.tombstones + {key});
    if key in s.active && s.active[key] in s.items && s.items[s.active[key]].place != Finished then
      marked.(items := s.items[s.active[key] := s.items[s.active[key]].(cancelRequested := true)])
    else marked
  }

  function DoCancelRun(s: State, run: RunId): State
    requires run in s.runs
  {
    Log(s.(runs := s.runs[run := Cancelled(s.runs[run])]), RunWithdrawn(run))
  }

  function DoDequeue(s: State, id: nat): State
    requires id in s.items
  {
    var key := s.items[id].ticket.key;
    if key in s.tombstones
    then Log(Drop(s, id).(tombstones := s.tombstones - {key}), Dropped(s.items[id].ticket))
    else Move(s, id, Held)
  }

  function DoAcquire(s: State, id: nat): State
    requires id in s.items && s.permits > 0
  {
    Move(s, id, Launched).(permits := s.permits - 1, active := s.active[s.items[id].ticket.key := id])
  }

  function DoBegin(s: State, id: nat, agentFound: bool): State
    requires id in s.items
  {
    var t := s.items[id].ticket;
    if agentFound then Log(Move(Record(s, t.key, RUNNING), id, Announcing), Attempted(t))
    else Log(Move(Record(s, t.key, FAILED), id, Failing), NoAgent(t))
  }

  function DoReturn(s: State, id: nat): State
    requires id in s.items
  {
    var key := s.items[id].ticket.key;
    Log(Move(Record(s, key, COMPLETED), id, Reporting), Succeeded(key))
  }

  function DoHandled(p: Plan, s: State, id: nat): State
    requires id in s.items
  {
    var run := s.items[id].ticket.key.run;
    var ready := Ready(p, s, run);
    Offer(Move(s, id, Finished), run, ready, |ready|, true)
  }

  /** The retry count goes up before the sleep; the delay is that of the old count. */
  function Asleep(s: State, id: nat): State
    requires id in s.items
  {
    var t := s.items[id].ticket;
    Log(s.(items := s.items[id := s.items[id].(ticket := t.(retryCount := t.retryCount + 1), place := Sleeping)]),
        BackedOff(t, Delay(BACKOFF_SECONDS, BACKOFF_MULTIPLIER, t.retryCount)))
  }

  function DoFail(p: Plan, s: State, id: nat): State
    requires id in s.items
  {
    var t := s.items[id].ticket;
    if t.retryCount < MaxRetries(p, t.key.step) then Asleep(s, id)
    else Log(Move(Record(s, t.key, FAILED), id, Failing), GaveUp(t))
  }

  function DoWake(s: State, id: nat): State
    requires id in s.items
  {
    Put(Move(s, id, Finished), s.items[id].ticket)
  }

  /** Only inside the agent call and the success report is the cancellation caught. */
  function DoInterrupt(s: State, id: nat): State
    requires id in s.items
  {
    var item := s.items[id];
    var recorded := if item.place == Working || item.place == Reporting then Record(s, item.ticket.key, SKIPPED) else s;
    Log(Move(recorded, id, Finished), Interrupted(item.ticket))
  }

  /** Frees the permit and pops whatever task the key maps to by now. */
  function DoRelease(s: State, id: nat): State
    requires id in s.items
  {
    var key := s.items[id].ticket.key;
    Drop(s, id).(permits := s.permits + 1, active := s.active - {key})
  }

  function Apply(p: Plan, s: State, a: Action): State
    requires Enabled(p, s, a)
  {
    match a
    case Execute(run) => DoExecute(p, s, run)
    case CancelStep(key) => DoCancelStep(s, key)
    case CancelRun(run) => DoCancelRun(s, run)
    case Dequeue(id) => DoDequeue(s, id)
    case Acquire(id) => DoAcquire(s, id)
    case Begin(id, agentFound) => DoBegin(s, id, agentFound)
    case Announced(id) => Move(s, id, Working)
    case Return(id) => DoReturn(s, id)
    case Handled(id) => DoHandled(p, s, id)
    case Fail(id) => DoFail(p, s, id)
    case Published(id) => Move(s, id, Finished)
    case Wake(id) => DoWake(s, id)
    case Interrupt(id) => DoInterrupt(s, id)
    case Release(id) => DoRelease(s, id)
  }

  // ----- Runs -------------------------------------------------------------------------

  /** `trace` is an execution: it starts idle and each state follows by an enabled action. */
  ghost predicate IsRun(p: Plan, max: nat, trace: seq<State>, acts: seq<Action>) {
    && |trace| == |acts| + 1 && trace[0] == Initial(max)
    && forall i :: 0 <= i < |acts| ==> Enabled(p, trace[i], acts[i]) && trace[i + 1] == Apply(p, trace[i], acts[i])
  }

  ghost predicate Reachable(p: Plan, max: nat, s: State) {
    exists trace, acts :: IsRun(p, max, trace, acts) && trace[|acts|] == s
  }

  /** A stretch of an execution, from any state on. */
  ghost predicate IsStretch(p: Plan, trace: seq<State>, acts: seq<Action>) {
    && |trace| == |acts| + 1
    && forall i :: 0 <= i < |acts| ==> Enabled(p, trace[i], acts[i]) && trace[i + 1] == Apply(p, trace[i], acts[i])
  }

  /** Some continuation of `s` leads to `t`. */
  ghost predicate Continues(p: Plan, s: State, t: State) {
    exists trace, acts :: IsStretch(p, trace, acts) && trace[0] == s && trace[|acts|] == t
  }

  lemma {:induction false} ContinuesNext(p: Plan, s: State, t: State, a: Action)
    requires Continues(p, s, t) && Enabled(p, t, a)
    ensures Continues(p, s, Apply(p, t, a))
  {
    hide Enabled, Apply;
    var trace, acts :| IsStretch(p, trace, acts) && trace[0] == s && trace[|acts|] == t;
    assert IsStretch(p, trace + [Apply(p, t, a)], acts + [a]);
    assert (trace + [Apply(p, t, a)])[|acts + [a]|] == Apply(p, t, a);
  }

  lemma {:induction false} ContinuesHere(p: Plan, s: State)
    ensures Continues(p, s, s)
  {
    var none: seq<Action> := [];
    assert IsStretch(p, [s], none);
    assert [s][|none|] == s;
  }

  lemma {:induction false} ContinuesOn(p: Plan, s: State, t: State, u: State)
    requires Continues(p, s, t) && Continues(p, t, u)
    ensures Continues(p, s, u)
  {
    hide Enabled, Apply;
    var trace, acts :| IsStretch(p, trace, acts) && trace[0] == s && trace[|acts|] == t;
    var trace', acts' :| IsStretch(p, trace', acts') && trace'[0] == t && trace'[|acts'|] == u;
    var all, done := trace[..|acts|] + trace', acts + acts';
    forall i | 0 <= i < |done|
      ensures Enabled(p, all[i], done[i]) && all[i + 1] == Apply(p, all[i], done[i])
    {
      if i < |acts| {
        assert all[i] == trace[i] && all[i + 1] == trace[i + 1];
      } else {
        assert all[i] == trace'[i - |acts|] && all[i + 1] == trace'[i - |acts| + 1];
      }
    }
    assert IsStretch(p, all, done);
    assert all[|done|] == u;
  }

  lemma {:induction false} ReachableNext(p: Plan, max: nat, s: State, a: Action)
    requires Reachable(p, max, s) && Enabled(p, s, a)
    ensures Reachable(p, max, Apply(p, s, a))
  {
    hide Enabled, Apply, Initial;
    var trace, acts :| IsRun(p, max, trace, acts) && trace[|acts|] == s;
    assert IsRun(p, max, trace + [Apply(p, s, a)], acts + [a]);
    assert (trace + [Apply(p, s, a)])[|acts + [a]|] == Apply(p, s, a);
  }

  lemma {:induction false} ReachableInitial(p: Plan, max: nat)
    ensures Reachable(p, max, Initial(max))
  {
    hide Initial;
    var none: seq<Action> := [];
    assert IsRun(p, max, [Initial(max)], none);
    assert [Initial(max)][|none|] == Initial(max);
  }

  lemma {:induction false} BothNext(p: Plan, max: nat, base: State, s: State, a: Action)
    requires Reachable(p, max, s) && Continues(p, base, s) && Enabled(p, s, a)
    ensures Reachable(p, max, Apply(p, s, a)) && Continues(p, base, Apply(p, s, a))
  {
    hide *;
    ReachableNext(p, max, s, a);
    ContinuesNext(p, base, s, a);
  }
}
