/** Run and step bookkeeping of the workflow engine as functions on values
    (orchestrator/workflow_dag.py). */
module WorkflowRuns {
  import opened Workflow
  import opened Digraph

  datatype RunState = RunState(status: WorkflowStatus, steps: map<StepId, StepStatus>)

  /** The run status the step statuses stand for. */
  function Derived(steps: map<StepId, StepStatus>): WorkflowStatus {
    if exists k :: k in steps && steps[k] == FAILED then RunFailed
    else if forall k :: k in steps ==> steps[k] == COMPLETED then RunCompleted
    else RunRunning
  }

  function Recompute(status: WorkflowStatus, steps: map<StepId, StepStatus>): WorkflowStatus {
    if status == RunCancelled then RunCancelled else Derived(steps)
  }

  /** `start_run`: nothing is derived yet, the run is simply running. */
  function Started(deps: Deps): RunState {
    RunState(RunRunning, map v | v in deps :: if deps[v] == [] then READY else WAITING)
  }

  /** `update_step`; an unknown step changes nothing. */
  function WithStep(run: RunState, k: StepId, st: StepStatus): RunState {
    if k in run.steps then
      var steps := run.steps[k := st];
      RunState(Recompute(run.status, steps), steps)
    else run
  }

  function Cancelled(run: RunState): RunState {
    RunState(RunCancelled, map k | k in run.steps :: if Unstarted(run.steps[k]) then SKIPPED else run.steps[k])
  }

  // ----- Run status over whole histories ---------------------------------------------

  datatype Op = Update(step: StepId, status: StepStatus) | Cancel

  function Replay(run: RunState, ops: seq<Op>, n: nat): RunState
    requires n <= |ops|
  {
    if n == 0 then run
    else match ops[n - 1]
      case Update(k, st) => WithStep(Replay(run, ops, n - 1), k, st)
      case Cancel => Cancelled(Replay(run, ops, n - 1))
  }

  ghost predicate WasCancelled(ops: seq<Op>, n: nat)
    requires n <= |ops|
  {
    exists i :: 0 <= i < n && ops[i] == Cancel
  }

  /** After any operations on a started run: once cancelled always cancelled, otherwise the
      status is the one its steps stand for. */
  lemma {:induction false} StatusIsDerived(deps: Deps, ops: seq<Op>, n: nat)
    requires n <= |ops| && deps != map[]
    ensures Replay(Started(deps), ops, n).steps.Keys == deps.Keys
    ensures Replay(Started(deps), ops, n).status ==
            if WasCancelled(ops, n) then RunCancelled else Derived(Replay(Started(deps), ops, n).steps)
    decreases n
  {
    if n == 0 {
      var v :| v in deps;
      assert Started(deps).steps[v] != COMPLETED;
    } else {
      StatusIsDerived(deps, ops, n - 1);
    }
  }

  /** What the status of a started, non-empty run means after any operations: cancelled once a
      cancellation was among them, else failed iff a step is, completed iff all steps are, and
      running otherwise. */
  lemma {:induction false} StatusMeans(deps: Deps, ops: seq<Op>, n: nat)
    requires n <= |ops| && deps != map[]
    ensures var r := Replay(Started(deps), ops, n);
            && r.steps.Keys == deps.Keys
            && (r.status == RunCancelled <==> exists i :: 0 <= i < n && ops[i] == Cancel)
            && (r.status != RunCancelled ==>
                  && (r.status == RunFailed <==> exists k :: k in r.steps && r.steps[k] == FAILED)
                  && (r.status == RunCompleted <==> forall k :: k in r.steps ==> r.steps[k] == COMPLETED)
                  && (r.status == RunRunning <==>
                        (forall k :: k in r.steps ==> r.steps[k] != FAILED) && exists k :: k in r.steps && r.steps[k] != COMPLETED))
  {
    StatusIsDerived(deps, ops, n);
    hide Replay, Started;
  }

  /** A step has the status last reported for it, unless it was withdrawn before it started. */
  lemma {:induction false} StepMeans(deps: Deps, ops: seq<Op>, n: nat, k: StepId)
    requires 0 < n <= |ops| && k in deps
    ensures k in Replay(Started(deps), ops, n - 1).steps && k in Replay(Started(deps), ops, n).steps
    ensures var was, now := Replay(Started(deps), ops, n - 1).steps[k], Replay(Started(deps), ops, n).steps[k];
            match ops[n - 1]
            case Update(step, status) => now == if step == k then status else was
            case Cancel => now == if was == PENDING || was == WAITING || was == READY then SKIPPED else was
  {
    KnownSteps(deps, ops, n - 1);
    hide Recompute;
  }

  lemma {:induction false} KnownSteps(deps: Deps, ops: seq<Op>, n: nat)
    requires n <= |ops|
    ensures Replay(Started(deps), ops, n).steps.Keys == deps.Keys
  {
    hide Recompute;
    if n == 0 {
    } else {
      KnownSteps(deps, ops, n - 1);
    }
  }

  /** A definition without steps is the one exception: nothing ever recomputes its status,
      so it stays running although all (none) of its steps are completed. */
  lemma {:induction false} EmptyRunNeverCompletes(ops: seq<Op>, n: nat)
    requires n <= |ops|
    ensures Replay(Started(map[]), ops, n).steps == map[]
    ensures Replay(Started(map[]), ops, n).status == if WasCancelled(ops, n) then RunCancelled else RunRunning
    decreases n
  {
    if n == 0 {
    } else {
      EmptyRunNeverCompletes(ops, n - 1);
    }
  }

  /** Exactly the non-empty definitions have a derived status in every uncancelled history. */
  lemma {:induction false} DerivedIffNonEmpty(deps: Deps)
    ensures deps != map[] <==>
            forall ops, n :: 0 <= n <= |ops| && !WasCancelled(ops, n) ==>
                               Replay(Started(deps), ops, n).status == Derived(Replay(Started(deps), ops, n).steps)
  {
    if deps != map[] {
      forall ops: seq<Op>, n: nat | n <= |ops| && !WasCancelled(ops, n)
        ensures Replay(Started(deps), ops, n).status == Derived(Replay(Started(deps), ops, n).steps)
      {
        StatusIsDerived(deps, ops, n);
      }
    } else {
      var none: seq<Op> := [];
      assert !WasCancelled(none, 0);
      assert Replay(Started(deps), none, 0) == Started(deps);
    }
  }

  /** A cancelled run has no step left that a scheduler could offer, whatever is reported
      about its steps later, as long as nobody reports a step unstarted again. */
  lemma {:induction false} CancelledStaysInert(run: RunState, k: StepId, st: StepStatus)
    ensures forall v :: v in Cancelled(run).steps ==> !Unstarted(Cancelled(run).steps[v])
    ensures !Unstarted(st) && (forall v :: v in run.steps ==> !Unstarted(run.steps[v])) ==>
              forall v :: v in WithStep(run, k, st).steps ==> !Unstarted(WithStep(run, k, st).steps[v])
  {
  }
}
