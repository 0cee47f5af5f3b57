# Proofs about an agent orchestration platform

A Dafny model of the parts of the platform where many parties act at once on shared state,
or where an algorithm makes a promise about every input: the step scheduler over its
dependency graph, the approval holds a person decides, questions returned inside results, the
restart watchdog, the phase tool plan, the session registry, the slot header and the
iteration loop. `dafny verify dfyconfig.toml` checks all of it.

## What is modelled

**Scheduler.** `DependencyEngine.dfy` is the dependency engine: a class whose methods are the
source's loops (graph construction, Kahn's algorithm, ready steps), over the path and cycle
theory of `Digraph.dfy`. `WorkflowEngine.dfy` is the class of stored runs, proved against the
functions of `WorkflowRuns.dfy`. `SchedulerModel.dfy` is the scheduler as a transition system.
A coroutine runs alone between two suspension points (`queue.get`, `semaphore.acquire`, the
agent call, `publish`, `sleep`), so each such stretch is one transition, and an execution is
any interleaving of them with new runs, step cancellations and run cancellations.
`Scheduler.dfy` is the class: each method is one stretch of `InMemoryScheduler`, and its
contract says what it does to the queue, the tasks and the statuses and that this is a
transition of the model. `SchedulerSteps.dfy` says what the transitions that offer steps do.
The theorems are in `SchedulerTheorems.dfy`, and the main ones once more in nothing but the
terms of the state and the history in `SchedulerPromises.dfy`; the invariants behind them are in `SchedulerSafety.dfy` (ids, tasks,
permits), `SchedulerOrder.dfy` (dependencies), `SchedulerRetries.dfy` (attempts and back-offs,
with the series of `Backoff.dfy`), `SchedulerWork.dfy` (the decreasing measure) and
`SchedulerProgress.dfy` (when a step is lost, and which transitions lose and repair one). What
is not promised has its exact condition: `SchedulerRepairs.dfy` says when a run that comes to
rest is settled and which losses are for good, `SchedulerDuplicates.dfy` and
`SchedulerDispatch.dfy` when steps are dispatched twice (the second builds the executions that
show the condition is needed), `SchedulerCompletions.dfy` when a completed step stops being
completed. `SchedulerWitness.dfy` shows each on a concrete execution.

**Approvals.** `ApprovalStore.dfy` is the run store with its status machine,
`ApprovalLedger.dfy` the operations on holds (open, close, decide, expire, use) and every
history they can have, `ApprovalGates.dfy` and `DashboardGate.dfy` the gates that race over a
hold. `RequestState.dfy` is the signed state and the signer's forgetting memory, `Mrtr.dfy` the
passes of a call that asks: a first one and its retries, each with the state the one before it
was answered with.

**Smaller cores.** `Watchdogs.dfy`, `PhasePlan.dfy`, `SessionRegistry.dfy`, `SlotCodec.dfy`
(with a JSON reader and writer), `SlotLayout.dfy` (the grammar of RFC 8259 with Python's
additions, and that the reader reads exactly its texts), `ContextHeaders.dfy` and `IterationLoop.dfy`.

## What the proofs found

- At-most-once dispatch does not hold: a step that waits in the queue is queued again whenever
  another step of the run completes (`SchedulerWitness.QueuedTwice`). Exactly when: no
  execution dispatches a step twice if and only if of any two steps of the plan one waits for
  the other, directly or not (`SchedulerDispatch.DispatchedOnceIff`). In one step, exactly a
  handler that finds a ready step which still has a ticket does it
  (`SchedulerDuplicates.RepeatedIff`, `SchedulerDuplicates.SecondTicketIff`).
- A recorded success can be taken back, with or without a cancellation. Exactly these
  transitions do it: a ticket of the step begins again, fails for good, or is interrupted
  inside the agent call or the success report (`SchedulerCompletions.TakenBackIff`, over whole
  stretches `SchedulerCompletions.CompletedForeverIff`). A completed run becomes failed without
  any cancellation when the second ticket of a step dispatched twice fails
  (`SchedulerWitness.CompletedThenFailed`); a cancellation while the completion event is
  published turns a completed step to skipped (`SchedulerWitness.SkippedAfterSuccess`). In a
  plan whose steps are all linked only the latter can happen
  (`SchedulerCompletions.LinkedTakesBack`).
- A run can come to rest unsettled, with a step that is neither completed nor failed nor waiting
  for a failed one. Exactly when: it was withdrawn, or some harm to a step of it was never
  repaired (`SchedulerRepairs.SettledIff`). A harm is a cancellation of the run before the step
  starts, an interrupt of its task inside the agent call or the success report, or a drop from
  the queue or an interrupt elsewhere that takes the last ticket the step depends on; or the
  interrupt of the last success report whose handler was due to offer it. A repair is a report
  of another ticket of a skipped step, or, for a ready step without an entry, a success of the
  run whose handler will offer it, or a dependency of it being taken back
  (`SchedulerProgress.LostIff`, for every transition and every step). So asking for a
  cancellation does no damage by itself (`SchedulerRepairs.UnharmedRunSettles`), and a harm need
  not either: a dropped step is offered again and its run completes
  (`SchedulerWitness.HarmedYetCompleted`). But a drop and an interrupt can both leave a run
  unsettled for ever (`SchedulerWitness.CancelledEntryIsLost`;
  `SchedulerWitness.InterruptedStepIsLost`, for which `cancel_step` said true).
- Losses that are for good: a step shown running or skipped that no ticket will report on is lost
  in every continuation (`SchedulerRepairs.DeadForever`); a ready step without an entry stays as
  it is until a handler of its run has run (`SchedulerRepairs.NoEntryUntilHandled`); and once no
  ticket of a run awaits and no handler of it is due, its outcome is fixed
  (`SchedulerRepairs.InactiveOutcome`).
- A run of a definition without steps is never completed: nothing recomputes its status
  (`WorkflowRuns.EmptyRunNeverCompletes`, exact in `WorkflowRuns.DerivedIffNonEmpty`).
- A rejection on the dashboard that lands after the last poll and before the end of the
  window is on record as a rejection and reported as a timeout
  (`DashboardGate.LateRejection`; `DashboardGate.DashboardAgreement` proves that this is the
  only disagreement).
- The approver that the prompt's gate reports is the one on record exactly if its own close
  decided; or, where the close returned, nobody decided or this session's person gave the very
  answer that is on record; or, where it was lost, the one on record is the one its own answer
  stands for (`ApprovalGates.ReportedApprover`, for every reply the gate resolves). In the worst
  cases a person declines a call that somebody else has just approved, the call runs, and the
  one who declined is named as its approver (`ApprovalGates.DeclinedYetApprover`), or a person
  is named for a rejection that is not on record at all (`ApprovalGates.RejectedByNobody`).
- A used approval can be replayed exactly with a state signed later than the use
  (`RequestState.ReplayIff`). Such a state is what a call returns that asks a further question
  after its approval gate, and the same rule works against that call: its retry gets beyond the
  gate only if it brings the gate's answer a second time, after the memory has forgotten the
  first and before the state expires; without that answer the gate is asked again
  (`Mrtr.SecondQuestion`). A retry that comes to the gate with the answer then does get beyond
  it, exactly if its close returns and the approval is on record (`Mrtr.SecondQuestionIff`). If
  the state was signed at the instant of the use, the call can never be finished
  (`Mrtr.NeverFinished`).
- A restart that happens and is reported as failed is invisible to the watchdog's limiter: a
  service whose restart always outlasts the answer is restarted any number of times in an hour
  (`Watchdogs.HiddenRestartsBreakTheCap`). The restarts made keep the limiter's promise
  whatever docker does only under a cap of zero (`Watchdogs.MadeSpacedIff`). They are the
  recorded ones exactly if none was hidden in this way (`Watchdogs.MadeIsRecordedIff`), and
  then they keep it (`Watchdogs.Watchdog.MadeAsPromised`).
- Decoding the slot header is said never to raise, and does raise: exactly on a header of at
  most 8192 characters that nests deeper than the interpreter has levels of recursion left, as
  1500 opening brackets do under the usual limit (`SlotCodec.DecodeItemSlots`,
  `SlotCodec.DecodingRaises`). What `encode_item_slots` writes nests two deep
  (`SlotCodec.EncodedIsRead`).

## Assumptions

Step ids, run ids and question keys are symbolic names. `publish` does not raise. The
scheduler's graph is built from the run's own definition, and each run is executed once,
right after it starts. Clocks do not run backwards, and two entries of one priority are
queued at different readings of the clock (at equal ones the queue would compare the steps
themselves, which fails). The MAC of a request state cannot be forged and sealing is
injective, and a state is verified and its hold used at one instant. A hold's uuid is fresh.
The ledger is in process: each of its operations is atomic, and the call to it may be lost
before or after it takes effect.

## Model

| member | source | states |
|---|---|---|
| `Digraph.StuckIsAfterCycle` | orchestrator/dependency_engine.py:76-79 | in a set of nodes each of which waits for another of the set, every node lies on a cycle or behind one |
| `Digraph.LayeredAvoidsCycles` | orchestrator/dependency_engine.py:68-74 | a node listed after all its dependencies is not behind any cycle |
| `DependencyEngine.DependencyGraph.Build` | orchestrator/dependency_engine.py:48-59 | refuses exactly the definitions in which an entry lists an id that no entry has; otherwise both edge maps hold exactly the listed edges, repetitions included |
| `DependencyEngine.DependencyGraph.AddNodes` | orchestrator/dependency_engine.py:49-52 | the step table keeps the last entry of a repeated id, the order the first |
| `DependencyEngine.DependencyGraph.AddEdges` | orchestrator/dependency_engine.py:55-59 | stops at the first unknown dependency, else keeps the two edge maps the same multigraph |
| `DependencyEngine.InitialDegrees` | orchestrator/dependency_engine.py:64-65 | in-degrees count listed dependencies; the queue starts with exactly the nodes at zero |
| `DependencyEngine.Release` | orchestrator/dependency_engine.py:71-74 | after a node is taken, each count is its unprocessed edges, and a node has been queued exactly if its count is zero |
| `DependencyEngine.DependencyGraph.KahnOrder` | orchestrator/dependency_engine.py:64-74 | the loop ends with distinct nodes, dependencies first, and what it leaves out waits for itself |
| `DependencyEngine.CutIsExact` | orchestrator/dependency_engine.py:76-79 | what such an order leaves out is exactly what lies on or behind a cycle, and nothing is left out iff there is no cycle |
| `DependencyEngine.DependencyGraph.Validate` | orchestrator/dependency_engine.py:61-82 | accepts iff there is no directed cycle; the reported ids are exactly the steps on a cycle or reachable from one, and of each of them an entry lists another of them |
| `DependencyEngine.DependencyGraph.EdgesAreListed` | orchestrator/dependency_engine.py:48-59 | an edge is there iff some entry of the step lists it, repeated ids included; each id of the definition is there once |
| `DependencyEngine.DependencyGraph.CyclesAreListed` | orchestrator/dependency_engine.py:61-82 | a step is reported iff it ends a walk along listed dependencies whose first step comes again |
| `DependencyEngine.DependencyGraph.TopologicalSort` | orchestrator/dependency_engine.py:84-100 | every id of the definition once, each after everything any entry of it lists, or the same refusal |
| `DependencyEngine.ReadyStepsExact` | orchestrator/dependency_engine.py:104-118 | the ready list names, once each, exactly the unstarted steps all of whose dependencies are completed |
| `DependencyEngine.DependencyGraph.GetReadySteps` | orchestrator/dependency_engine.py:102-118 | the step of the last entry of an id is listed, once, iff it has an unstarted status and every dependency that entry lists is completed; nothing else is listed |
| `DependencyEngine.DependencyGraph.StepDepsAreSafe` | orchestrator/dependency_engine.py:48-59 | the ready rule reads exactly the dependencies the last entry of an id lists, and these are among the validated edges |
| `DependencyEngine.DistinctIsLast` | orchestrator/dependency_engine.py:49-52 | without repeated ids every entry is the last of its id, so the two rows above speak of every entry |
| `WorkflowRuns.StatusIsDerived` | orchestrator/workflow_dag.py:298-315 | after any updates and cancellations: cancelled forever once cancelled, else the status its steps stand for |
| `WorkflowRuns.StatusMeans` | orchestrator/workflow_dag.py:225-315 | after any updates and cancellations of a started run that has a step and was not cancelled: failed iff a step is failed, completed iff all are completed, else running |
| `WorkflowRuns.StepMeans` | orchestrator/workflow_dag.py:225-282 | after an update a step shows what was reported, after a cancellation skipped iff it was unstarted, and no other status changes |
| `WorkflowRuns.EmptyRunNeverCompletes` | orchestrator/workflow_dag.py:189-206 | a run without steps stays running until it is cancelled |
| `WorkflowRuns.DerivedIffNonEmpty` | orchestrator/workflow_dag.py:189-206 | the status is always the derived one iff the definition has a step |
| `WorkflowRuns.CancelledStaysInert` | orchestrator/workflow_dag.py:268-282 | after a cancellation no step is unstarted, and no later report of a started status changes that |
| `WorkflowEngine.WorkflowRun.RecomputeStatus` | orchestrator/workflow_dag.py:298-315 | unless the run is cancelled: failed iff a step is failed, completed iff all are completed, else running |
| `WorkflowEngine.InMemoryWorkflowEngine.StartRun` | orchestrator/workflow_dag.py:177-220 | one new running run, steps ready iff they list no dependency; an unknown workflow changes nothing |
| `WorkflowEngine.InMemoryWorkflowEngine.InitialSteps` | orchestrator/workflow_dag.py:199-206 | exactly the ids of the definition have a status, ready iff the last entry of the id lists no dependency, else waiting |
| `WorkflowEngine.InMemoryWorkflowEngine.UpdateStep` | orchestrator/workflow_dag.py:225-266 | exactly one status changes; then the run is failed iff a step is, completed iff all are, else running, unless it is cancelled; an unknown run or step changes nothing |
| `WorkflowEngine.InMemoryWorkflowEngine.CancelRun` | orchestrator/workflow_dag.py:268-282 | exactly the unstarted steps become skipped and the run cancelled |
| `Scheduler.InMemoryScheduler.constructor` | orchestrator/scheduler.py:108-128 | the scheduler starts idle with all its permits |
| `Scheduler.InMemoryScheduler.PlanIsWellFormed` | orchestrator/dependency_engine.py:41-46 | a built graph gives the plan the theorems speak about, acyclic if the graph validates, with the dependencies and the retry limit that the last entry of each id lists |
| `Scheduler.InMemoryScheduler.ScheduleStep` | orchestrator/scheduler.py:133-134 | one more queue entry with a new id, nothing else |
| `Scheduler.InMemoryScheduler.CancelStep` | orchestrator/scheduler.py:143-152 | true iff a task of the key was running; that one, wherever it is suspended, is asked to stop and can be interrupted, and no other; the key is tombstoned either way |
| `Scheduler.InMemoryScheduler.GetActiveCount` | orchestrator/scheduler.py:157-158 | counts the mapped tasks that are not done |
| `Scheduler.InMemoryScheduler.TakeEntry` | orchestrator/scheduler.py:180-187 | a tombstone drops one entry of its key and is used up; without one the entry is held |
| `Scheduler.InMemoryScheduler.Launch` | orchestrator/scheduler.py:189-197 | takes a permit and replaces the key's mapped task |
| `Scheduler.InMemoryScheduler.OnStepDone` | orchestrator/scheduler.py:203-205 | frees a permit and unmaps the key, whichever task it maps to by now |
| `Scheduler.InMemoryScheduler.BeginStep` | orchestrator/scheduler.py:214-241 | shows failed without an agent and goes on to publish that, else shows running and goes on to publish the start |
| `Scheduler.InMemoryScheduler.CallAgent` | orchestrator/scheduler.py:228-243 | the start is published and the agent is called: one transition, nothing else changes |
| `Scheduler.InMemoryScheduler.ReportStepSuccess` | orchestrator/scheduler.py:287-315 | records completed before the event is published |
| `Scheduler.InMemoryScheduler.HandleFailure` | orchestrator/scheduler.py:350-368 | retries iff the count is below the `retry_max` of the entry, after the delay of the old count; else shows failed |
| `Scheduler.InMemoryScheduler.EndFailed` | orchestrator/scheduler.py:340-348 | the failure is published and the task is done: one transition, nothing else changes |
| `Scheduler.InMemoryScheduler.RetryStep` | orchestrator/scheduler.py:368-369 | the same ticket is queued again before its task ends |
| `Scheduler.InMemoryScheduler.OnCancelled` | orchestrator/scheduler.py:244-271 | skipped is shown iff the task was inside the agent call or the success report; its task ends either way |
| `Scheduler.InMemoryScheduler.ScheduleReadyDependents` | orchestrator/scheduler.py:371-420 | marks ready and queues every ready step once, in order; its re-check never skips one |
| `Scheduler.InMemoryScheduler.HandleSuccess` | orchestrator/scheduler.py:324-325 | the end of a successful task is one transition of the model, which `SchedulerSteps.HandlerOffers` spells out |
| `Scheduler.InMemoryScheduler.ExecuteRun` | orchestrator/scheduler.py:422-443 | queues every ready step once, in order, and changes no status |
| `Scheduler.InMemoryScheduler.StartAndExecute` | orchestrator/scheduler.py:422-443 | starting a run of the definition the graph was built from and executing it is one transition of the model |
| `Backoff.BackoffSum` | orchestrator/scheduler.py:356-359 | k delays sum to b(m^k - 1)/(m - 1), or bk when m is 1 |
| `SchedulerSafety.ShapeStep` | orchestrator/scheduler.py:177-205 | every transition keeps ids unique, at most one held entry, the active map pointing at live tasks of its keys, and permits plus tasks constant |
| `SchedulerSteps.HandlerOffers` | orchestrator/scheduler.py:371-420 | in every reachable state the handler of a success queues exactly one fresh ticket for each step of its run that is unstarted and has only completed dependencies, shows it ready, and changes no other status, run or ticket but its own |
| `SchedulerSteps.StartOffers` | orchestrator/scheduler.py:422-443 | in every reachable state a new run starts with exactly the steps that list no dependency ready and queued, once each, and all others waiting |
| `SchedulerSteps.LogMeans` | orchestrator/scheduler.py:177-443 | what each transition adds to the history the theorems speak about |
| `SchedulerOrder.OrderStep` | orchestrator/scheduler.py:371-420 | every transition keeps: tickets, attempts and successes come after the successes of their dependencies; completed and failed are shown only after the fact |
| `SchedulerRetries.RetryStep` | orchestrator/scheduler.py:350-369 | every transition keeps one ongoing ticket per chain, whose retry count is the number of attempts and of back-offs made, within the limit, each back-off with the delay of its number |
| `SchedulerProgress.LostIff` | orchestrator/scheduler.py:143-443 | for every transition and every step: a step that is not lost becomes lost iff the transition harms it, and a lost step stops being lost iff the transition repairs it, both read off the state and the transition |
| `SchedulerProgress.StatusSoundStep` | orchestrator/workflow_dag.py:268-315 | every transition keeps: a run is cancelled once it was withdrawn, and else has the status its steps stand for |
| `SchedulerProgress.NoLossStep` | orchestrator/scheduler.py:371-443 | every transition keeps: a run with nothing dropped, interrupted or cancelled has for every ready step an entry on its way or a handler due, for every running step a ticket, and nothing skipped |
| `SchedulerWork.WorkDecreases` | orchestrator/scheduler.py:177-443 | every transition of the scheduler itself decreases (unstarted steps, weight of started tickets, weight of unstarted tickets) |
| `SchedulerWork.NeverBackStep` | orchestrator/scheduler.py:371-399 | a step that has left pending, waiting and ready never returns there |
| `SchedulerWork.CancelNotMore` | orchestrator/scheduler.py:143-152 | cancellations never increase the measure |
| `SchedulerTheorems.AlwaysInvariant` | orchestrator/scheduler.py:177-443 | all invariants hold at every point of every execution |
| `SchedulerTheorems.DependencyOrder` | orchestrator/scheduler.py:371-443 | the first completions of a run are a linear extension of its dependencies, and every attempt and every ticket has its dependencies completed before it |
| `SchedulerTheorems.ConcurrencyBound` | orchestrator/scheduler.py:157-158 | free permits plus tasks equal `max_concurrency`, and the active count never exceeds the unfinished tasks, also when two share a key |
| `SchedulerTheorems.RetryBound` | orchestrator/scheduler.py:350-369 | a chain makes at most retry_max + 1 attempts, and reports failure exactly after making all of them |
| `SchedulerTheorems.BackoffOfAChain` | orchestrator/scheduler.py:356-369 | in every execution the logged waits of a chain add up to 2^k - 1 seconds after k back-offs, and k never exceeds the step's limit |
| `SchedulerTheorems.NoLostStep` | orchestrator/scheduler.py:287-443 | whatever the interleaving, at rest a run with nothing dropped, interrupted or cancelled is settled: every step completed, failed, or unstarted behind a failed one, the run failed iff a step is, completed otherwise |
| `SchedulerTheorems.SettledIffNothingLost` | orchestrator/scheduler.py:371-443 | at rest a run is settled iff no step of it is lost and its status is the one its steps stand for |
| `SchedulerTheorems.UndisturbedRunCompletes` | orchestrator/scheduler.py:287-443 | with nothing dropped, interrupted or cancelled and no final failure, at rest every step and the run are completed |
| `SchedulerTheorems.FiniteWork` | orchestrator/scheduler.py:177-443 | no execution with finitely many runs makes scheduler transitions forever |
| `SchedulerTheorems.RestsOnlyWhenDone` | orchestrator/scheduler.py:177-205 | with a positive limit, no transition is possible iff nothing is queued, held, in flight, sleeping or awaiting its handler |
| `SchedulerTheorems.CancelledForever` | orchestrator/scheduler.py:371-420 | a cancelled run stays cancelled, has no ready step, and gets no ticket but the retry of an existing one |
| `SchedulerTheorems.CancelReachesTask` | orchestrator/scheduler.py:143-152 | in every reachable state, wherever the task of a key is suspended, a cancellation of the key makes exactly that task interruptible |
| `SchedulerPromises.DependenciesFirst` | orchestrator/scheduler.py:371-443 | an attempt is only ever made after every listed dependency of its step has succeeded in the same run |
| `SchedulerPromises.TasksWithinLimit` | orchestrator/scheduler.py:157-205 | free permits plus launched tasks equal `max_concurrency`, counted on the state itself |
| `SchedulerPromises.AttemptsWithinLimit` | orchestrator/scheduler.py:350-369 | the number of attempts a chain made before an attempt is its retry count, within the limit, and `retry_max` + 1 before it fails for good |
| `SchedulerPromises.DelaysDouble` | orchestrator/scheduler.py:356-359 | the delays are one second, doubled with every retry |
| `SchedulerPromises.NoStepIsForgotten` | orchestrator/scheduler.py:287-443 | at rest, with nothing dropped, interrupted or withdrawn: the run failed and has a failed step, or completed with all steps completed; a step that did neither has not started and a chain of unstarted dependencies leads from it to a failed one |
| `SchedulerPromises.OnlyRequestsForever` | orchestrator/scheduler.py:177-443 | in an infinite execution with finitely many runs, from some point on only cancellations are asked for |
| `SchedulerRepairs.LostAtEndIff` | orchestrator/scheduler.py:143-443 | at the end of an execution a step is lost iff some harm to it was not followed by a repair |
| `SchedulerRepairs.SettledIff` | orchestrator/scheduler.py:143-443 | a run at rest is settled iff it was not withdrawn and every harm to a step of it was followed by a repair of that step |
| `SchedulerRepairs.UnharmedRunSettles` | orchestrator/scheduler.py:143-443 | a run that was not withdrawn and that no transition harmed is settled when the scheduler comes to rest, whatever cancellations were asked for |
| `SchedulerRepairs.DeadForever` | orchestrator/scheduler.py:207-285 | a step shown running or skipped that no ticket will report on stays lost, and its run unsettled, in every continuation |
| `SchedulerRepairs.NoEntryUntilHandled` | orchestrator/scheduler.py:371-420 | an unstarted step with no ticket on its way stays so over any stretch without a handler of its run and without its cancellation |
| `SchedulerRepairs.InactiveOutcome` | orchestrator/scheduler.py:177-443 | once no ticket of a run awaits and no handler of it is due, every continuation that comes to rest leaves it settled iff no step of it was lost by then and it is not withdrawn |
| `SchedulerDuplicates.RepeatedIff` | orchestrator/scheduler.py:379-420 | any transition that starts without duplicates makes one iff it is a handler and a ready step of its run still has a ticket |
| `SchedulerDuplicates.SecondTicketIff` | orchestrator/scheduler.py:379-420 | the handler queues a second ticket of a step, of another chain, beside one not yet begun iff the step is ready and has such a ticket |
| `SchedulerDuplicates.AtMostOneReady` | orchestrator/dependency_engine.py:102-118 | in every reachable state of a plan whose steps are linked at most one step of a run is ready |
| `SchedulerDispatch.DispatchedOnceIff` | orchestrator/scheduler.py:371-443 | for an acyclic plan: no execution with any positive limit has a step in the scheduler twice iff of any two steps one is reachable from the other |
| `SchedulerCompletions.TakenBackIff` | orchestrator/scheduler.py:214-305 | any transition takes a completed step out of completed iff a ticket of it begins, fails for good, or is interrupted inside the agent call or the success report |
| `SchedulerCompletions.CompletedForeverIff` | orchestrator/scheduler.py:214-305 | over any stretch of any execution a completed step stays completed iff none of these transitions happens in it |
| `SchedulerCompletions.LinkedTakesBack` | orchestrator/scheduler.py:270-315 | in a linked plan a success is taken back exactly by an interrupt of the task that is reporting it |
| `SchedulerWitness.QueuedTwice` | orchestrator/scheduler.py:379-420 | a reachable state with two entries of one step in the queue |
| `SchedulerWitness.CompletedThenFailed` | orchestrator/scheduler.py:214-333 | a completed run that becomes failed by the transitions of a second ticket, without a cancellation |
| `SchedulerWitness.SkippedAfterSuccess` | orchestrator/scheduler.py:270-271 | a reachable state in which a step whose success was recorded is skipped |
| `SchedulerWitness.CancelledEntryIsLost` | orchestrator/scheduler.py:151-187 | a reachable state at rest in which a cancelled queue entry left its run running for ever |
| `SchedulerWitness.InterruptedStepIsLost` | orchestrator/scheduler.py:143-241 | a reachable state at rest in which a step cancelled before its agent call is running for ever |
| `SchedulerWitness.HarmedYetCompleted` | orchestrator/scheduler.py:184-420 | a reachable drop of the only entry of a ready step, and a continuation in which the step is offered again and the run completes |
| `ApprovalStore.TerminalIsFinal` | orchestrator/harness/runs.py:55-87 | exactly the terminal statuses allow no transition |
| `ApprovalStore.WaysInto` | orchestrator/harness/runs.py:55-87 | which statuses lead to each status |
| `ApprovalStore.InMemoryRunStore.Transition` | orchestrator/harness/runs.py:210-220 | moves iff the edge is allowed, and otherwise changes nothing |
| `ApprovalStore.InMemoryRunStore.RequestApproval` | orchestrator/harness/runs.py:225-235 | only a running run starts to await, with its deadline |
| `ApprovalStore.InMemoryRunStore.SubmitApproval` | orchestrator/harness/runs.py:263-286 | a decision and its approver are recorded iff the run awaits one: a rejection rejects, approve, retry and rework put it back to running |
| `ApprovalStore.InMemoryRunStore.ExpireOverdue` | orchestrator/harness/runs.py:243-261 | exactly the pending runs at or past their deadline time out |
| `ApprovalLedger.AlwaysResting` | api_gateway/chat/tool_approvals.py:817-849 | between operations no hold is queued or running, and exactly the answered ones have an approver |
| `ApprovalLedger.DecidedOnce` | orchestrator/harness/runs.py:74-87 | from its first decision on, a hold keeps status, approver and lifetime, and once used it stays used |
| `ApprovalLedger.LedgerAgreement` | api_gateway/mcp_approvals.py:247-303 | the outcome a close returned is what every later read and close returns, and the status that stands for it is on record for good |
| `ApprovalLedger.OneLiveHold` | api_gateway/chat/tool_approvals.py:501-522 | at any time at most one hold per key is live |
| `ApprovalLedger.SweptLive` | api_gateway/chat/tool_approvals.py:501-522 | after a sweep a key has a live hold iff an unused one of it was pending before its deadline, or decided and inside its lifetime |
| `ApprovalLedger.DecidedHoldIsFound` | api_gateway/chat/tool_approvals.py:437-522 | in every history, from its decision until its lifetime ends or it is used, a durable hold can be used and is the one an identical call is given |
| `ApprovalLedger.HistoryGoesOn` | api_gateway/chat/tool_approvals.py:437-591 | every history goes on with every operation but the opening of a taken id or beside a live hold of the key, and the use of an undecided, used or expired hold |
| `ApprovalLedger.UsedOnce` | api_gateway/chat/tool_approvals.py:547-591 | a hold is used at most once in any history, and only after it was approved or rejected, with the person or policy that decided on record |
| `ApprovalLedger.HoldLedger.FindLiveHold` | api_gateway/chat/tool_approvals.py:514-522 | sweeps, then finds none iff no unused hold of the key is pending, or decided and inside its lifetime; else finds the newest of these |
| `ApprovalLedger.HoldLedger.CreateHold` | api_gateway/chat/tool_approvals.py:437-498 | reuses the newest live hold of the key iff there is one, else opens one, awaiting, with the asked window within its cap and the deadline after it |
| `ApprovalLedger.HoldLedger.RecordInlineAnswer` | api_gateway/chat/tool_approvals.py:852-884 | answer and completion in one step, iff the hold awaits an answer |
| `ApprovalLedger.HoldLedger.CloseHold` | api_gateway/mcp_approvals.py:272-303 | decides a pending hold, leaves a decided one, and returns what is on record |
| `ApprovalLedger.HoldLedger.ResolveHold` | api_gateway/chat/tool_approvals.py:763-908 | refused iff a person has already decided; on a pending hold exactly the outcome is recorded, in the name given only if the request is authenticated |
| `ApprovalLedger.HoldLedger.DecideToolApproval` | api_gateway/chat/tool_approvals.py:917-979 | an approval or rejection is recorded iff the hold is still pending after the sweep; retry and rework are refused unless the hold went unanswered, which is a conflict |
| `ApprovalLedger.HoldLedger.ConsumeHold` | api_gateway/chat/tool_approvals.py:547-577 | accepted iff decided, unused and, for an approval, inside its lifetime |
| `ApprovalLedger.HoldLedger.ApproveByPolicy` | api_gateway/chat/tool_approvals.py:658-745 | a new hold, completed in the name of the policy, used already iff it is durable |
| `ApprovalGates.TryClose` | mcp_core/elicitation.py:438-455 | a close whose answer arrives names what is on record |
| `ApprovalGates.SettleGate` | mcp_core/elicitation.py:397-467 | from the client's reply on: which replies resolve, with which outcome and approver, and what is on record then; approved only if on record |
| `ApprovalGates.ElicitationGate` | mcp_core/elicitation.py:392-467 | the whole gate: the entry exists before the question or nothing changes and the call is refused; then, whatever others do meanwhile, approved only if on record, and whenever the close returned the outcome is the recorded one |
| `ApprovalGates.GateAgreement` | mcp_core/elicitation.py:438-467 | under every race the gate's recorded outcome is what all later reads and closes return: the earlier decision if there was one, else its own |
| `ApprovalGates.ReportedApprover` | mcp_core/elicitation.py:434-467 | for every reply the gate resolves, every hold and every fate of the close: when the reported approver is the one on record |
| `ApprovalGates.RejectedByNobody` | mcp_core/elicitation.py:440-455 | a rejection reported with an approver while the hold is still pending |
| `ApprovalGates.DeclinedYetApprover` | mcp_core/elicitation.py:456-467 | a history in which the person who declined is reported as the approver of the call that runs |
| `ApprovalGates.AskOnHold` | mcp_core/elicitation.py:501-601 | an accept or a decline that was not too fast is recorded and returned; nothing else touches the hold; approved only if on record |
| `ApprovalGates.RecordLate` | mcp_core/elicitation.py:526-554 | a late answer decides a pending hold, a late dismissal decides nothing |
| `DashboardGate.AwaitDecision` | orchestrator/harness/runs.py:387-452 | closes the hold iff no poll saw it decided, as timed out at the end of the window and as canceled if the waiter is, and returns what the polls and the record say |
| `DashboardGate.WaitMeans` | orchestrator/harness/runs.py:413-452 | the first poll that sees a decided hold ends the wait with it, else the status at the end of the window counts |
| `DashboardGate.DashboardAgreement` | api_gateway/mcp_approvals.py:117-148 | the dashboard gate's outcome is the recorded one iff it is not a rejection no poll saw |
| `DashboardGate.LateRejection` | orchestrator/harness/runs.py:425-434 | a history in which the two differ |
| `RequestState.SignThenVerify` | mcp_core/mrtr.py:185-219 | a state verifies iff it is for the same secret, caller, method and digest and at most 900 seconds old, and then carries exactly the signed holds; otherwise which refusal it meets |
| `RequestState.OnlySignedVerifies` | mcp_core/mrtr.py:197-219 | nothing verifies but what was signed |
| `RequestState.StateSigner.Consume` | mcp_core/mrtr.py:221-229 | accepts iff the hold was not used in the last 900 seconds, remembers it then, and forgets exactly the older uses |
| `RequestState.SingleUse` | mcp_core/mrtr.py:221-229 | if no state naming the hold was signed later than its first use, no later use succeeds, although uses are forgotten |
| `RequestState.LifeGoesOn` | mcp_core/mrtr.py:185-229 | every life of the signer goes on with each event whose condition holds |
| `RequestState.ReplayIff` | mcp_core/mrtr.py:185-229 | a remembered hold can be used again with a state iff the state was signed later than the use |
| `Mrtr.MrtrContext.NextKey` | mcp_core/mrtr.py:131-138 | the n-th question has the n-th key |
| `Mrtr.PromptTurn` | mcp_core/mrtr.py:250-259 | answers from the retry iff it brought the key, else leaves the question pending |
| `Mrtr.GateTurn` | mcp_core/mrtr.py:267-300 | opens an entry iff none is carried, before the question is asked, and without one changes nothing; uses the answer once; an accept of a pending hold approves, a decline rejects, a dismissal times out, each on record; goes on only if the approval is on record |
| `Mrtr.Pass` | mcp_core/mrtr.py:232-300 | for every script, every failure to open, every lost close and whatever others do to the ledger meanwhile: a pass goes as far as its unused answers reach, carries on exactly the entries of the gates it got to, leaves at most one question pending, and goes on after the last one only with every gate approved on the ledger |
| `Mrtr.CarriedExact` | mcp_core/mrtr.py:272-276 | what a pass adds to the carried entries, key by key |
| `Mrtr.ChainGoesOn` | mcp_core/mrtr.py:131-145 | every chain of passes goes on with any pass that starts from what the last one left, while its state has not expired |
| `Mrtr.OneEntryPerQuestion` | mcp_core/mrtr.py:131-145 | over passes each of which presents the verified state of the one before: a gate question opens its entry in the first pass that gets to it and in no other, and every later pass carries that entry |
| `Mrtr.SecondQuestion` | mcp_core/mrtr.py:267-281 | after a gate was answered and a later question asked, a retry with that state gets beyond the gate only with the gate's answer again, after the use is forgotten and before the state expires; without the answer it is asked again, and sooner the answer counts as used |
| `Mrtr.SecondQuestionIff` | mcp_core/mrtr.py:267-300 | a retry that comes to the gate gets beyond it iff it brings the answer, the use is forgotten, the close returns and the approval is on record; its state is then not expired |
| `Mrtr.ChainOwnHold` | mcp_core/mrtr.py:272-276 | with fresh ids, over a call and its retries no two gate questions share a hold |
| `Mrtr.NeverFinished` | mcp_core/mrtr.py:221-281 | if the state was signed at the instant of the use, no retry with it gets beyond the gate |
| `Watchdogs.Prune` | observability/watchdog.py:214-215 | the deque becomes exactly the last hour of the full log |
| `Watchdogs.JudgedByWindow` | observability/watchdog.py:216-220 | the verdict on the pruned deque is the verdict on everything ever recorded |
| `Watchdogs.JudgedMeans` | observability/watchdog.py:214-220 | blocked by cooldown iff the last recorded restart is too recent, else by cap iff the last `max_restarts_per_hour` all lie within the hour |
| `Watchdogs.Appended` | observability/watchdog.py:246 | a restart recorded after the limiter said go keeps the spacing, though the clock has moved on |
| `Watchdogs.HourlyCap` | observability/watchdog.py:218-219 | any hour holds at most `max_restarts_per_hour` recorded restarts |
| `Watchdogs.CooldownKept` | observability/watchdog.py:216-217 | two recorded restarts are a cooldown apart, or an hour if the cooldown is longer |
| `Watchdogs.CapZeroMeansNone` | observability/watchdog.py:218-219 | with a cap of zero nothing is ever restarted |
| `Watchdogs.Watchdog.constructor` | observability/watchdog.py:189-208 | the settings are those given, and nothing was seen or restarted |
| `Watchdogs.Watchdog.Allowed` | observability/watchdog.py:210-220 | blocked by cooldown or cap exactly as the recorded restarts say; the deque stays their suffix |
| `Watchdogs.Watchdog.Restart` | observability/watchdog.py:222-249 | goes ahead iff the recorded restarts allow it, records the restart iff docker reports it, marks the service iff it does not go ahead |
| `Watchdogs.Watchdog.RecordedAsPromised` | observability/watchdog.py:210-246 | in every state of the watchdog the recorded restarts of a service keep the hourly cap and the cooldown |
| `Watchdogs.MadeIsRecordedIff` | observability/watchdog.py:237-246 | the restarts made are the recorded ones iff no attempt that went ahead restarted the container and was reported as failed |
| `Watchdogs.HiddenRestartsBreakTheCap` | observability/watchdog.py:57-62 | the input: max + 1 such attempts at one instant all go ahead and break the hourly cap |
| `Watchdogs.MadeSpacedIff` | observability/watchdog.py:210-246 | the restarts made keep the limiter's promise for every behaviour of docker iff the cap is zero |
| `Watchdogs.Watchdog.MadeAsPromised` | observability/watchdog.py:210-246 | in every state of the watchdog, if no restart was reported as failed, those made keep the limiter's promise |
| `Watchdogs.RestartsAreEarned` | observability/watchdog.py:271-276 | a restart for health comes right after `unhealthy_checks` unhealthy sightings in a row, none counted for an earlier restart |
| `Watchdogs.StreakMeans` | observability/watchdog.py:271-272 | a streak of n means that the last n sightings were unhealthy, and conversely |
| `Watchdogs.StreakLonger` | observability/watchdog.py:270-272 | an unhealthy sighting makes the stored streak one longer, as the sightings say |
| `Watchdogs.StreakCleared` | observability/watchdog.py:265-276 | a healthy sighting or an earned restart clears it, and nobody else's |
| `Watchdogs.Watchdog.CheckHealth` | observability/watchdog.py:264-276 | one service's turn: its sighting, and a restart iff earned, allowed and carried out |
| `Watchdogs.Watchdog.TurnMeans` | observability/watchdog.py:264-276 | a turn asks docker iff this sighting and the `unhealthy_checks` - 1 before it are unhealthy, and changes only its service |
| `Watchdogs.Watchdog.CheckTwin` | observability/watchdog.py:278-289 | the gateway is restarted for its twin iff the passes seen so far end in `twin_checks` uncounted ones with the twin in memory and the limiter and docker go along |
| `Watchdogs.Watchdog.TwinMeans` | observability/watchdog.py:278-289 | the same for the twin |
| `Watchdogs.Watchdog.TwinRestartsAreEarned` | observability/watchdog.py:280-289 | a restart for the twin comes right after `twin_checks` passes in a row that saw it in memory, none counted for an earlier restart |
| `Watchdogs.Watchdog.Check` | observability/watchdog.py:251-289 | a pass gives every listed service its turn in order, then the twin, and keeps every promise |
| `Watchdogs.Watchdog.TurnsTouchOnlyListed` | observability/watchdog.py:264-276 | services not listed keep their restarts and their streaks |
| `PhasePlan.BeforeIsTotalOrder` | mcp_core/profiles.py:732-735 | the drop order is a strict total order: irreflexive, one way round for any two tools, transitive |
| `PhasePlan.KeptFirst` | mcp_core/profiles.py:721-735 | tools of the four simulation and CAD families come after all others; within a class tools come in alphabetical order |
| `PhasePlan.PlanIsUnique` | mcp_core/profiles.py:738-766 | must-haves kept, budget kept, partition, full if anything is dropped, kept extras before dropped ones: only one plan is like that |
| `PhasePlan.PlanMeans` | mcp_core/profiles.py:738-766 | common tools, tools for the deliverables and required ones are kept; of the other tools of the disciplines the first in drop order, until 38 are there |
| `PhasePlan.MustMeans` | mcp_core/profiles.py:746-747 | what can never be dropped |
| `PhasePlan.Sort` | mcp_core/profiles.py:761 | the extras in drop order, each once |
| `PhasePlan.Select` | mcp_core/profiles.py:759-766 | the greedy loop finds that plan |
| `PhasePlan.PhasePlan` | mcp_core/profiles.py:738-766 | raises iff the must-haves exceed the budget, else returns the plan of the named sets |
| `PhasePlan.OrderDoesNotMatter` | mcp_core/profiles.py:738-766 | order and repetition of the arguments do not change the plan |
| `SessionRegistry.Registry.BindSessionProject` | mcp_core/context.py:300-305 | the binding moves to the end, or a new one is added there and pushes the oldest out of a full registry |
| `SessionRegistry.Registry.ClearSessionProject` | mcp_core/context.py:342-344 | that session's binding is gone and every other binding is kept, in order |
| `SessionRegistry.AlwaysBounded` | mcp_core/context.py:292-305 | at most 512 bindings, one per session, after any operations |
| `SessionRegistry.LatestCounts` | mcp_core/context.py:300-344 | a binding is there as soon as it is made and gone as soon as it is cleared |
| `SessionRegistry.RefinesUnboundedMap` | mcp_core/context.py:300-344 | the answer is the unbounded map's or none, and it is there iff there never were 512 newer uncleared bindings at once |
| `SessionRegistry.AgreesWhileFew` | mcp_core/context.py:292-312 | agrees with the unbounded map while fewer than 512 distinct other sessions were bound since |
| `SlotCodec.ScanBack` | mcp_core/context.py:468-473 | a written string reads back, adjacent surrogates joined |
| `SlotCodec.ValueBack` | mcp_core/context.py:468-481 | a written array of strings or arrays reads back |
| `SlotCodec.LoadsRaisesIff` | mcp_core/context.py:480-481 | for every text, the scan raises RecursionError iff the text nests deeper than the limit, and otherwise reads what an unlimited scan reads |
| `SlotCodec.DecodeItemSlots` | mcp_core/context.py:476-494 | raises iff a header of readable length nests deeper than the limit; otherwise always yields at most 64 slots with fields neither empty nor longer than 200 |
| `SlotCodec.DecodingRaises` | mcp_core/context.py:478-483 | a header that makes it raise exists iff the limit is below 8192, and any longer run of opening brackets is one |
| `SlotCodec.EncodedIsRead` | mcp_core/context.py:468-483 | decoding what was encoded never raises with two levels of recursion left, and with fewer exactly if it has to read that deep |
| `SlotCodec.HeaderSays` | mcp_core/context.py:468-473 | a written header is the array of the first 64 slots in order, each as type, name and key |
| `SlotCodec.DecodeOfEncode` | mcp_core/context.py:468-494 | decoding an encoding, for all slots: the valid ones of the first 64, surrogates joined, or none if the header is too long |
| `SlotCodec.RoundTripIff` | mcp_core/context.py:468-494 | the round trip is exact iff at most 64 slots, header at most 8192, fields non-empty, at most 200 long and free of surrogate pairs, and two levels of recursion, one for no slots |
| `SlotLayout.SkipSpaceMeans` | mcp_core/context.py:480-481 | exactly spaces, tabs, line feeds and carriage returns are skipped, as far as they go |
| `SlotLayout.StringIsRead` | mcp_core/context.py:480-481 | every spelling of a string is read as that string: plain characters, short escapes, hexadecimal escapes in either case, pairs of them |
| `SlotLayout.LayoutIsRead` | mcp_core/context.py:480-481 | every text of a value, whatever its white space, escapes, numbers and objects, is read as what it says |
| `SlotLayout.ReadsExactlyJson` | mcp_core/context.py:480-481 | the reader reads exactly the JSON texts, each as what it says |
| `SlotLayout.SlotOfMeans` | mcp_core/context.py:486-493 | an entry is a slot iff it is an array of three strings, none empty or longer than 200 |
| `SlotLayout.HeaderIsDecoded` | mcp_core/context.py:476-494 | a header that is a JSON text of at most 8192 characters is decoded to the slots among the first 64 entries of its array, or to none if it is no array |
| `SlotLayout.OtherHeaders` | mcp_core/context.py:478-485 | a header that is no JSON text is no slots |
| `SlotLayout.AnyHeaderIsDecoded` | mcp_core/context.py:476-494 | whoever wrote it and however it is spaced and escaped, a header that says these slots is decoded to the valid ones of the first 64 |
| `SlotLayout.CodeIsWritten` | mcp_core/context.py:468-473 | how each character is written |
| `SlotLayout.HeaderIsAscii` | mcp_core/context.py:468-473 | whatever the slots hold, the header is printable ASCII |
| `ContextHeaders.ClaimKeeps` | mcp_core/context.py:497-504 | a claim comes back as it is iff it is not empty, at most 200 long, printable and without outer spaces |
| `ContextHeaders.ClaimMeans` | mcp_core/context.py:497-504 | a claim loses its outer spaces, is dropped if nothing is left or something is unprintable, and else cut to 200 characters |
| `ContextHeaders.HeadersRoundTrip` | mcp_core/context.py:420-535 | what comes back of a context that is not the sentinel, field by field, each with its exact condition |
| `ContextHeaders.HeadersRoundTripIff` | mcp_core/context.py:433-535 | the whole context comes back iff its actor is not empty, its claims are absent or normal, nothing server-set is on it, its slots are at most 64, fit the header and have faithful fields, and an absent project is not bound |
| `ContextHeaders.ReceivedMeans` | mcp_core/context.py:507-535 | what a receiver makes of headers that are missing or garbled |
| `ContextHeaders.SentinelIsAnonymous` | mcp_core/context.py:440-448 | the sentinel sends no headers and the receiver takes fresh ids |
| `IterationLoop.IterationController.GateCheck` | orchestrator/iteration_controller.py:340-377 | approves iff `auto_approve`; blocked iff nobody can be asked |
| `IterationLoop.IterationController.RunIterationLoop` | orchestrator/iteration_controller.py:129-338 | result and calls to the outside are exactly those specified for every reaction of agent and twin |
| `IterationLoop.RecordsOfARun` | orchestrator/iteration_controller.py:182-242 | one record per iteration, at most `max_iterations`, all but the last failures; each says whether the agent returned, whether the evaluation passed and its errors |
| `IterationLoop.TotalMeans` | orchestrator/iteration_controller.py:165-242 | the loop ends with the first iteration whose agent raises or whose evaluation passes, else with the last one allowed |
| `IterationLoop.OutcomeMeans` | orchestrator/iteration_controller.py:182-338 | when the result is approved, converged, blocked or failed, with which answer and which fault |
| `IterationLoop.CallsOfARun` | orchestrator/iteration_controller.py:129-338 | the calls of a run in their order, and nothing else: branch, then per iteration agent and evaluation, then commit and merge |
| `IterationLoop.MergeDiscipline` | orchestrator/iteration_controller.py:246-268 | a merge is the last call, right after a successful commit of the same branch and a passing evaluation, and only with `auto_approve` |
| `IterationLoop.ApprovedIffMerged` | orchestrator/iteration_controller.py:249-285 | approved iff a merge was made and returned, and then the automatic approver is named |
| `IterationLoop.AgentSees` | orchestrator/iteration_controller.py:323-326 | from the second iteration on the agent sees the given parameters, its number and the violations, or the message, of the evaluation before, nothing older |

## Left out

- Priorities and timestamps in the scheduler's queue: any queued entry may be taken next, so nothing is said about order among them.
- `stop` and a second `start` of the dispatch loop, a scheduler without a graph, and entries put in the queue by other callers than `execute_run` and completions.
- `$ref` resolution of step parameters, step results, error texts, timestamps and metrics: they carry no control flow.
- The sorted order of the ids in a cycle report: the set is modelled.
- Health text parsing, memory readings and the log-once flag's metrics in the watchdog; its settings are taken as already clamped.
- Case folding of discipline names and the concrete tool tables: the tables are arbitrary.
- How a uuid is spelled in a header, which headers a transport can carry, and case folding of header names.
- How many levels of recursion the interpreter has left when a header is read: a parameter.
- Restoring holds from disk, the engine-driven `reconcile`, flow-version decisions and the choice of the approval policy.
- Cancellation of a call while its close of a hold is itself waiting for the ledger.
- Scheduler.InMemoryScheduler: coroutines are represented by the point each is suspended at, and a method is one stretch between two such points.
- Real MACs, digests and base64: sealing is symbolic.
- `SchedulerTheorems.FiniteWork`: speaks of executions in which finitely many runs are started; a caller who starts runs forever gets work forever.
