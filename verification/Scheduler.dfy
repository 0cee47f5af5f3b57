/** The in-memory scheduler: each stretch of `InMemoryScheduler` between two suspension
    points, proved to be one transition of `SchedulerModel` (orchestrator/scheduler.py). */
module Scheduler {
  import opened Workflow
  import opened Digraph
  import opened DependencyEngine
  import opened WorkflowRuns
  import opened WorkflowEngine
  import opened Backoff
  import opened SchedulerModel
  import opened SchedulerSafety
  import opened SchedulerTheorems

  // ----- The scheduler ----------------------------------------------------------------

  class InMemoryScheduler {
    const engine: InMemoryWorkflowEngine
    const graph: DependencyGraph
    var items: map<nat, Item>     // queue entries, and tasks with the point each is suspended at
    var next: nat
    var active: map<Key, nat>
    var cancelled: set<Key>
    var permits: nat
    ghost var log: seq<Event>

    constructor (engine: InMemoryWorkflowEngine, graph: DependencyGraph, maxConcurrency: nat)
      requires engine.Valid() && graph.Valid() && graph.Describes()
      ensures Valid() && this.engine == engine && this.graph == graph
      ensures engine.runs == map[] ==> State() == Initial(maxConcurrency)
    {
      this.engine, this.graph := engine, graph;
      items, next, active, cancelled, permits, log := map[], 0, map[], {}, maxConcurrency, [];
    }

    /** Ticket ids are handed out in order; the graph is a built one. */
    ghost predicate Valid()
      reads `items, `next, engine, graph
    {
      engine.Valid() && graph.Valid() && graph.Describes() && forall i :: i in items ==> i < next
    }

    ghost function ThePlan(): Plan
      reads graph
    {
      Plan(graph.ids, graph.StepDeps(), map v | v in graph.steps :: graph.steps[v].retryMax)
    }

    ghost function State(): State
      reads this, engine, engine.runs.Values
    {
      SchedulerModel.State(engine.State(), items, next, active, cancelled, permits, log)
    }

    ghost predicate Can(a: Action)
      reads this, engine, engine.runs.Values, graph
    {
      Valid() && Enabled(ThePlan(), State(), a)
    }

    /** The stretch since `before` was transition `a` of the model. */
    ghost predicate Made(before: State, a: Action)
      reads this, engine, engine.runs.Values, graph
    {
      Enabled(ThePlan(), before, a) && State() == Apply(ThePlan(), before, a)
    }

    lemma {:induction false} MadeBy(before: State, a: Action)
      requires Enabled(ThePlan(), before, a) && State() == Apply(ThePlan(), before, a)
      ensures Made(before, a)
    {
      hide Enabled, Apply;
    }

    /** A graph built from a definition is a well-formed plan, acyclic if it validates, and holds
        of every entry that is kept the dependencies and the retry limit it lists. */
    lemma {:induction false} PlanIsWellFormed()
      requires Valid()
      ensures WellFormed(ThePlan())
      ensures Acyclic(graph.reverse) ==> Acyclic(ThePlan().deps)
      ensures forall m :: 0 <= m < |graph.definition| && IsLast(graph.definition, m) ==>
                var entry := graph.definition[m];
                && entry.stepId in ThePlan().deps && ThePlan().deps[entry.stepId] == entry.dependsOn
                && MaxRetries(ThePlan(), entry.stepId) == entry.retryMax
    {
      graph.StepDepsAreSafe();
    }

    method ScheduleStep(t: Ticket)
      requires Valid()
      modifies `items, `next
      ensures Valid() && State() == Put(old(State()), t)
      ensures next == old(next) + 1 && items == old(items)[old(next) := Item(t, Queued, false)]
    {
      items := items[next := Item(t, Queued, false)];
      next := next + 1;
    }

    /** True exactly if a task of the key was running; that task is then asked to stop, wherever
        it is suspended, and nothing else changes. Either way the key is tombstoned. */
    method CancelStep(key: Key) returns (r: bool)
      requires Valid()
      modifies `items, `cancelled
      ensures Valid() && Made(old(State()), Action.CancelStep(key))
      ensures r <==> key in ActiveKeys(old(State()))
      ensures r <==> key in active && active[key] in old(items) && old(items)[active[key]].place != Finished
      ensures cancelled == old(cancelled) + {key} && items.Keys == old(items).Keys
      ensures r ==> items[active[key]] == old(items)[active[key]].(cancelRequested := true)
      ensures r && IsTask(items[active[key]].place) ==> Can(Interrupt(active[key]))
      ensures forall i :: i in items && !(r && i == active[key]) ==> items[i] == old(items)[i]
    {
      r := key in active && active[key] in items && items[active[key]].place != Finished;
      if r {
        items := items[active[key] := items[active[key]].(cancelRequested := true)];
      }
      cancelled := cancelled + {key};
    }

    method GetActiveCount() returns (n: nat)
      ensures n == |ActiveKeys(State())|
    {
      var running := set k | k in active && active[k] in items && items[active[k]].place != Finished;
      assert running == ActiveKeys(State());
      n := |running|;
    }

    // ----- The dispatch loop ----------------------------------------------------------

    /** `queue.get` returned entry `id`; a tombstoned one is dropped. */
    method TakeEntry(id: nat)
      requires Valid() && id in items && items[id].place == Queued && forall i :: i in items ==> items[i].place != Held
      modifies `items, `cancelled, `log
      ensures Valid() && Made(old(State()), Dequeue(id))
      ensures var key := old(items)[id].ticket.key;
              if key in old(cancelled) then id !in items && cancelled == old(cancelled) - {key}
              else cancelled == old(cancelled) && id in items && items[id] == old(items)[id].(place := Held)
      ensures forall i :: i != id ==> (i in items <==> i in old(items)) && (i in items ==> items[i] == old(items)[i])
    {
      var key := items[id].ticket.key;
      if key in cancelled {
        cancelled := cancelled - {key};
        log := log + [Dropped(items[id].ticket)];
        items := map i | i in items && i != id :: items[i];
      } else {
        MoveTo(id, Held);
      }
    }

    /** `semaphore.acquire` returned; the task replaces whatever the key mapped to. */
    method Launch(id: nat)
      requires Valid() && id in items && items[id].place == Held && permits > 0
      modifies `items, `permits, `active
      ensures Valid() && Made(old(State()), Acquire(id))
      ensures permits == old(permits) - 1 && active == old(active)[old(items)[id].ticket.key := id]
      ensures items == old(items)[id := old(items)[id].(place := Launched)]
    {
      permits := permits - 1;
      active := active[items[id].ticket.key := id];
      MoveTo(id, Launched);
    }

    /** `_on_step_done`. */
    method OnStepDone(id: nat)
      requires Valid() && id in items && items[id].place == Finished
      modifies `items, `permits, `active
      ensures Valid() && Made(old(State()), Action.Release(id))
      ensures permits == old(permits) + 1 && id !in items && old(items)[id].ticket.key !in active
      ensures forall i :: i != id ==> (i in items <==> i in old(items)) && (i in items ==> items[i] == old(items)[i])
      ensures forall k :: k != old(items)[id].ticket.key ==>
                (k in active <==> k in old(active)) && (k in active ==> active[k] == old(active)[k])
    {
      permits := permits + 1;
      active := active - {items[id].ticket.key};
      items := map i | i in items && i != id :: items[i];
    }

    // ----- A task ---------------------------------------------------------------------

    method MoveTo(id: nat, place: Place)
      requires Valid() && id in items
      modifies `items
      ensures Valid() && State() == Move(old(State()), id, place) && items.Keys == old(items.Keys)
      ensures items == old(items)[id := old(items)[id].(place := place)]
    {
      items := items[id := items[id].(place := place)];
    }

    /** The engine shows this status for the step, if it knows the step. */
    ghost predicate Shows(key: Key, status: StepStatus)
      reads this, engine, engine.runs.Values
    {
      key.run in engine.runs && key.step in engine.runs[key.run].steps ==> engine.runs[key.run].steps[key.step] == status
    }

    /** `_engine.update_step` for the task's own step. */
    method Report(id: nat, status: StepStatus)
      requires Valid() && id in items
      modifies engine.runs.Values
      ensures Valid() && State() == Record(old(State()), items[id].ticket.key, status)
      ensures Shows(items[id].ticket.key, status)
    {
      hide WithStep;
      var key := items[id].ticket.key;
      var found := engine.UpdateStep(key.run, key.step, status);
      assert found ==> engine.State()[key.run].steps[key.step] == status;
    }

    /** Record a status for the task's step and go on to the next suspension point. */
    method ReportAndMove(id: nat, status: StepStatus, place: Place, ghost e: Event)
      requires Valid() && id in items
      modifies `items, `log, engine.runs.Values
      ensures Valid()
      ensures State() == Log(Move(Record(old(State()), old(items[id].ticket.key), status), id, place), e)
      ensures items == old(items)[id := old(items)[id].(place := place)] && log == old(log) + [e]
      ensures Shows(old(items)[id].ticket.key, status)
    {
      hide WithStep, InMemoryWorkflowEngine.State;
      Report(id, status);
      hide Record;
      MoveTo(id, place);
      log := log + [e];
    }

    /** AGENT_TASK_STARTED is published: the agent is called. */
    method CallAgent(id: nat)
      requires Valid() && id in items && items[id].place == Announcing
      modifies `items
      ensures Valid() && Made(old(State()), Announced(id))
      ensures items == old(items)[id := old(items)[id].(place := Working)]
    {
      MoveTo(id, Working);
    }

    /** AGENT_TASK_FAILED is published: the task is done. */
    method EndFailed(id: nat)
      requires Valid() && id in items && items[id].place == Failing
      modifies `items
      ensures Valid() && Made(old(State()), Published(id))
      ensures items == old(items)[id := old(items)[id].(place := Finished)]
    {
      MoveTo(id, Finished);
    }

    /** The start of `_execute_step`. */
    method BeginStep(id: nat, agentFound: bool)
      requires Valid() && id in items && items[id].place == Launched
      modifies `items, `log, engine.runs.Values
      ensures Valid() && Made(old(State()), Begin(id, agentFound))
      ensures Shows(old(items)[id].ticket.key, if agentFound then RUNNING else FAILED)
      ensures items == old(items)[id := old(items)[id].(place := if agentFound then Announcing else Failing)]
    {
      hide Record, Move, Log;
      if !agentFound {
        ReportAndMove(id, FAILED, Failing, NoAgent(items[id].ticket));
      } else {
        ReportAndMove(id, RUNNING, Announcing, Attempted(items[id].ticket));
      }
    }

    /** `_report_step_success` up to its publish. */
    method ReportStepSuccess(id: nat)
      requires Valid() && id in items && items[id].place == Working
      modifies `items, `log, engine.runs.Values
      ensures Valid() && Made(old(State()), Return(id))
      ensures Shows(old(items)[id].ticket.key, COMPLETED)
      ensures items == old(items)[id := old(items)[id].(place := Reporting)]
    {
      hide Record, Move, Log;
      ReportAndMove(id, COMPLETED, Reporting, Succeeded(items[id].ticket.key));
    }

    /** The policy every ticket carries: `max_retries` is the step's `retry_max`. */
    method RetryLimit(k: StepId) returns (limit: int)
      requires Valid()
      ensures limit == MaxRetries(ThePlan(), k) == LimitOf(k)
    {
      limit := if k in graph.steps then graph.steps[k].retryMax else 0;
    }

    /** `_retry_step` up to its sleep. */
    method BackOff(id: nat) returns (delay: real)
      requires Valid() && id in items
      modifies `items, `log
      ensures Valid() && delay == Delay(BACKOFF_SECONDS, BACKOFF_MULTIPLIER, old(items[id].ticket.retryCount))
      ensures State() == Asleep(old(State()), id)
      ensures var t := old(items)[id].ticket;
              items == old(items)[id := old(items)[id].(ticket := t.(retryCount := t.retryCount + 1), place := Sleeping)]
    {
      var t := items[id].ticket;
      delay := Delay(BACKOFF_SECONDS, BACKOFF_MULTIPLIER, t.retryCount);
      items := items[id := items[id].(ticket := t.(retryCount := t.retryCount + 1), place := Sleeping)];
      log := log + [BackedOff(t, delay)];
    }

    /** `_handle_failure` up to the sleep of a retry or the publish of a failure. */
    method HandleFailure(id: nat) returns (delay: real)
      requires Valid() && id in items && items[id].place == Working
      modifies `items, `log, engine.runs.Values
      ensures Valid() && Made(old(State()), Action.Fail(id))
      ensures FailedAs(old(items), id, delay)
    {
      hide *;
      var t := items[id].ticket;
      var limit := RetryLimit(t.key.step);
      if t.retryCount < limit {
        delay := Retry(id, limit);
      } else {
        delay := 0.0;
        GiveUp(id, limit);
      }
    }

    method Retry(id: nat, limit: int) returns (delay: real)
      requires Valid() && id in items && items[id].place == Working
      requires items[id].ticket.retryCount < limit == LimitOf(items[id].ticket.key.step)
      modifies `items, `log
      ensures Valid() && Made(old(State()), Action.Fail(id))
      ensures FailedAs(old(items), id, delay)
    {
      ghost var s, p, before := State(), ThePlan(), items;
      hide *;
      WorkingAt(id);
      LimitIs(items[id].ticket.key.step);
      FailIs(p, s, id);
      delay := BackOff(id);
      RetriesLater(before, id, delay);
      MadeBy(s, Action.Fail(id));
    }

    /** `_report_step_failure` up to its publish. */
    method GiveUp(id: nat, limit: int)
      requires Valid() && id in items && items[id].place == Working
      requires items[id].ticket.retryCount >= limit == LimitOf(items[id].ticket.key.step)
      modifies `items, `log, engine.runs.Values
      ensures Valid() && Made(old(State()), Action.Fail(id))
      ensures FailedAs(old(items), id, 0.0)
    {
      ghost var s, p, before := State(), ThePlan(), items;
      hide *;
      WorkingAt(id);
      LimitIs(items[id].ticket.key.step);
      FailIs(p, s, id);
      ReportAndMove(id, FAILED, Failing, GaveUp(items[id].ticket));
      FailsForGood(before, id);
      MadeBy(s, Action.Fail(id));
    }

    /** What the step's entry says. */
    ghost function LimitOf(k: StepId): int
      reads graph
    {
      if k in graph.steps then graph.steps[k].retryMax else 0
    }

    lemma {:induction false} WorkingAt(id: nat)
      requires id in items && items[id].place == Working
      ensures At(State(), id, Working) && id in State().items && State().items[id] == items[id]
    {
    }

    lemma {:induction false} LimitIs(k: StepId)
      ensures LimitOf(k) == MaxRetries(ThePlan(), k)
    {
    }

    /** A failed attempt is to be retried after its delay if the step's entry allows one more, and
        else the step is shown as failed. */
    ghost predicate FailedAs(before: map<nat, Item>, id: nat, delay: real)
      requires id in before
      reads this, graph, engine, engine.runs.Values
    {
      var item := before[id];
      var t := item.ticket;
      if t.retryCount < LimitOf(t.key.step) then
        && delay == Delay(BACKOFF_SECONDS, BACKOFF_MULTIPLIER, t.retryCount)
        && items == before[id := item.(ticket := t.(retryCount := t.retryCount + 1), place := Sleeping)]
      else
        delay == 0.0 && Shows(t.key, FAILED) && items == before[id := item.(place := Failing)]
    }

    lemma {:induction false} RetriesLater(before: map<nat, Item>, id: nat, delay: real)
      requires id in before && before[id].ticket.retryCount < LimitOf(before[id].ticket.key.step)
      requires var t := before[id].ticket;
               && delay == Delay(BACKOFF_SECONDS, BACKOFF_MULTIPLIER, t.retryCount)
               && items == before[id := before[id].(ticket := t.(retryCount := t.retryCount + 1), place := Sleeping)]
      ensures FailedAs(before, id, delay)
    {
      hide Delay, LimitOf;
    }

    lemma {:induction false} FailsForGood(before: map<nat, Item>, id: nat)
      requires id in before && before[id].ticket.retryCount >= LimitOf(before[id].ticket.key.step)
      requires Shows(before[id].ticket.key, FAILED) && items == before[id := before[id].(place := Failing)]
      ensures FailedAs(before, id, 0.0)
    {
      hide Shows, LimitOf;
    }

    /** The end of `_retry_step`: the sleep is over. */
    method RetryStep(id: nat)
      requires Valid() && id in items && items[id].place == Sleeping
      modifies `items, `next
      ensures Valid() && Made(old(State()), Wake(id))
      ensures next == old(next) + 1
      ensures items == old(items)[old(next) := Item(old(items)[id].ticket, Queued, false)]
                                 [id := old(items)[id].(place := Finished)]
    {
      ScheduleStep(items[id].ticket);
      MoveTo(id, Finished);
    }

    /** A `CancelledError` reaches the coroutine where it is suspended. */
    method OnCancelled(id: nat)
      requires Valid() && id in items && items[id].cancelRequested
      requires IsTask(items[id].place) && items[id].place != Finished
      modifies `items, `log, engine.runs.Values
      ensures Valid() && Made(old(State()), Interrupt(id))
      ensures items == old(items)[id := old(items)[id].(place := Finished)]
      ensures if old(items)[id].place == Working || old(items)[id].place == Reporting
              then Shows(old(items)[id].ticket.key, SKIPPED) else engine.State() == old(engine.State())
    {
      hide Record;
      if items[id].place == Working || items[id].place == Reporting {
        ReportAndMove(id, SKIPPED, Finished, Interrupted(items[id].ticket));
      } else {
        MoveTo(id, Finished);
        log := log + [Interrupted(items[id].ticket)];
      }
    }

    // ----- Offering ready steps -------------------------------------------------------

    lemma {:induction false} StillUnstarted(s: State, run: RunId, ready: seq<StepId>, n: nat)
      requires n < |ready| && run in s.runs
      requires ready == ReadySteps(graph.ids, graph.StepDeps(), s.runs[run].steps)
      ensures run in Offer(s, run, ready, n, true).runs
      ensures var steps := Offer(s, run, ready, n, true).runs[run].steps;
              ready[n] in graph.steps && ready[n] in steps && Unstarted(steps[ready[n]])
    {
      ReadyStepsExact(graph.ids, graph.StepDeps(), s.runs[run].steps);
      hide ReadySteps;
      assert ready[n] in ready;
      OfferStatuses(s, run, ready, n, true);
    }

    lemma {:induction false} ReadyIs(run: RunId)
      requires Valid() && run in engine.runs
      ensures graph.Valid()
      ensures Ready(ThePlan(), State(), run) == ReadySteps(graph.ids, graph.StepDeps(), engine.runs[run].steps)
    {
      hide ReadySteps, DependencyGraph.StepDeps;
    }

    lemma {:induction false} Scheduled(s: State, run: RunId, ready: seq<StepId>, n: nat, before: State)
      requires n < |ready| && before == Offer(s, run, ready, n, false)
      requires State() == Put(before, Ticket(Key(run, ready[n]), 0, before.next))
      ensures State() == Offer(s, run, ready, n + 1, false)
    {
      OfferNext(s, run, ready, n, false);
      hide *;
    }

    lemma {:induction false} NextIs()
      ensures State().next == next
    {
    }

    /** The end of the loop body of `_schedule_ready_dependents`. */
    method OfferStep(run: RunId, k: StepId)
      requires Valid()
      modifies `items, `next, engine.runs.Values
      ensures Valid()
      ensures State() == Put(Record(old(State()), Key(run, k), READY), Ticket(Key(run, k), 0, old(next)))
    {
      hide WithStep;
      var _ := engine.UpdateStep(run, k, READY);
      ScheduleStep(Ticket(Key(run, k), 0, next));
    }

    /** `_schedule_ready_dependents`. Its re-check of each step never skips one: nothing
        else runs between reading the ready list and the end of the loop. */
    method ScheduleReadyDependents(run: RunId)
      requires Valid()
      modifies `items, `next, engine.runs.Values
      ensures Valid()
      ensures var s := old(State()); var ready := Ready(ThePlan(), s, run);
              State() == Offer(s, run, ready, |ready|, true)
    {
      hide WithStep, ReadySteps, Offer;
      ghost var s := State();
      OfferNothing(s, run, [], true);
      if run !in engine.runs {
        return;
      }
      var r := engine.runs[run];
      var ready := graph.GetReadySteps(r.steps);
      OfferNothing(s, run, ready, true);
      for i := 0 to |ready|
        invariant Valid() && State() == Offer(s, run, ready, i, true) && engine.runs == old(engine.runs)
      {
        var k := ready[i];
        StillUnstarted(s, run, ready, i);
        if k in graph.steps && (k !in r.steps || Unstarted(r.steps[k])) {
          OfferNext(s, run, ready, i, true);
          OfferStep(run, k);
        }
      }
    }

    /** `execute_run`: the same without recording READY, which `start_run` has done. */
    method ExecuteRun(run: RunId)
      requires Valid() && run in engine.runs
      modifies `items, `next
      ensures Valid()
      ensures var s := old(State()); var ready := Ready(ThePlan(), s, run);
              State() == Offer(s, run, ready, |ready|, false)
    {
      hide *;
      ghost var s := State();
      ReadyIs(run);
      var ready := graph.GetReadySteps(engine.runs[run].steps);
      OfferNothing(s, run, ready, false);
      for i := 0 to |ready|
        invariant Valid() && State() == Offer(s, run, ready, i, false)
      {
        if ready[i] in graph.steps {
          ghost var before := State();
          NextIs();
          ScheduleStep(Ticket(Key(run, ready[i]), 0, next));
          Scheduled(s, run, ready, i, before);
        }
      }
    }

    /** `start_run` of the workflow the graph was built from, then `execute_run`. */
    method StartAndExecute(workflow: string, run: RunId)
      requires Valid() && run !in engine.runs
      requires workflow in engine.definitions && engine.definitions[workflow] == graph.definition
      modifies `items, `next, engine`runs
      ensures Valid() && Made(old(State()), Execute(run))
    {
      hide *;
      ghost var s := State();
      NotStarted(run);
      Start(workflow, run);
      ExecuteRun(run);
      ExecuteApplies(ThePlan(), s, run);
      MadeBy(s, Execute(run));
    }

    lemma {:induction false} NotStarted(run: RunId)
      ensures run in State().runs <==> run in engine.runs
    {
    }

    method Start(workflow: string, run: RunId)
      requires Valid() && run !in engine.runs
      requires workflow in engine.definitions && engine.definitions[workflow] == graph.definition
      modifies engine`runs
      ensures Valid() && run in engine.runs
      ensures State() == old(State()).(runs := old(State()).runs[run := Started(ThePlan().deps)])
    {
      hide WithStep, ReadySteps, Started, HasInitial, InMemoryWorkflowEngine.State, InMemoryWorkflowEngine.Valid;
      var found := engine.StartRun(workflow, run);
    }

    /** The end of `_report_step_success`. */
    method HandleSuccess(id: nat)
      requires Valid() && id in items && items[id].place == Reporting
      modifies `items, `next
      modifies engine.runs.Values
      ensures Valid() && Made(old(State()), Handled(id))
    {
      hide ReadySteps, Offer;
      ghost var s := State();
      var run := items[id].ticket.key.run;
      ghost var ready := Ready(ThePlan(), s, run);
      OfferMoves(s, id, run, ready, |ready|);
      ScheduleReadyDependents(run);
      MoveTo(id, Finished);
    }
  }

  lemma {:induction false} ExecuteApplies(p: Plan, s: State, run: RunId)
    requires run !in s.runs
    ensures Enabled(p, s, Execute(run))
    ensures var started := s.(runs := s.runs[run := Started(p.deps)]); var ready := Ready(p, started, run);
            Apply(p, s, Execute(run)) == Offer(started, run, ready, |ready|, false)
  {
  }

  lemma {:induction false} FailIs(p: Plan, s: State, id: nat)
    requires At(s, id, Working)
    ensures id in s.items && Enabled(p, s, Action.Fail(id))
    ensures var t := s.items[id].ticket;
            Apply(p, s, Action.Fail(id)) ==
            if t.retryCount < MaxRetries(p, t.key.step) then Asleep(s, id)
            else Log(Move(Record(s, t.key, FAILED), id, Failing), GaveUp(t))
  {
  }

  lemma {:induction false} OfferNothing(s: State, run: RunId, ks: seq<StepId>, mark: bool)
    ensures Offer(s, run, ks, 0, mark) == s
  {
  }

  lemma {:induction false} OfferNext(s: State, run: RunId, ks: seq<StepId>, n: nat, mark: bool)
    requires n < |ks|
    ensures var before := Offer(s, run, ks, n, mark);
            var marked := if mark then Record(before, Key(run, ks[n]), READY) else before;
            Offer(s, run, ks, n + 1, mark) == Put(marked, Ticket(Key(run, ks[n]), 0, before.next))
  {
    hide WithStep;
  }

  lemma {:induction false} PutMoves(s: State, id: nat, key: Key, st: StepStatus, t: Ticket)
    requires id in s.items && s.next !in s.items
    ensures id in Put(Record(s, key, st), t).items && id in Record(Move(s, id, Finished), key, st).items
    ensures Put(Record(Move(s, id, Finished), key, st), t) == Move(Put(Record(s, key, st), t), id, Finished)
  {
    hide WithStep;
  }

  /** A task may end before or after it offers the ready steps. */
  lemma {:induction false} OfferMoves(s: State, id: nat, run: RunId, ks: seq<StepId>, n: nat)
    requires n <= |ks| && id in s.items && forall i :: i in s.items ==> i < s.next
    ensures id in Offer(s, run, ks, n, true).items
    ensures Offer(Move(s, id, Finished), run, ks, n, true) == Move(Offer(s, run, ks, n, true), id, Finished)
    decreases n
  {
    hide Record, Move, Put;
    if n == 0 {
    } else {
      OfferMoves(s, id, run, ks, n - 1);
      OfferItems(s, run, ks, n - 1, true);
      var before := Offer(s, run, ks, n - 1, true);
      RecordNext(before, Key(run, ks[n - 1]), READY);
      RecordNext(Move(before, id, Finished), Key(run, ks[n - 1]), READY);
      MoveNext(before, id, Finished);
      PutMoves(before, id, Key(run, ks[n - 1]), READY, Ticket(Key(run, ks[n - 1]), 0, before.next));
    }
  }

  lemma {:induction false} RecordNext(s: State, key: Key, st: StepStatus)
    ensures Record(s, key, st).next == s.next
  {
    hide WithStep;
  }

  lemma {:induction false} MoveNext(s: State, id: nat, place: Place)
    requires id in s.items
    ensures Move(s, id, place).next == s.next
  {
  }
}
