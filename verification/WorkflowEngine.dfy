/** The in-memory workflow engine: stored runs, updated in place
    (orchestrator/workflow_dag.py). */
module WorkflowEngine {
  import opened Workflow
  import opened DependencyEngine
  import opened WorkflowRuns

  class WorkflowRun {
    var status: WorkflowStatus
    var steps: map<StepId, StepStatus>

    constructor ()
      ensures State() == RunState(RunRunning, map[])
    {
      status, steps := RunRunning, map[];
    }

    ghost function State(): RunState
      reads this
    {
      RunState(status, steps)
    }

    /** `_recompute_run_status`. */
    method RecomputeStatus()
      modifies `status
      ensures status == Recompute(old(status), steps)
      ensures old(status) == RunCancelled ==> status == RunCancelled
      ensures old(status) != RunCancelled ==>
                && (status == RunFailed <==> exists k :: k in steps && steps[k] == FAILED)
                && (status == RunCompleted <==> forall k :: k in steps ==> steps[k] == COMPLETED)
                && (status == RunFailed || status == RunCompleted || status == RunRunning)
    {
      if status == RunCancelled {
        return;
      }
      var statuses := set k | k in steps :: steps[k];
      if FAILED in statuses {
        status := RunFailed;
      } else if forall s :: s in statuses ==> s == COMPLETED {
        assert forall k :: k in steps ==> steps[k] in statuses;
        status := RunCompleted;
      } else {
        status := RunRunning;
      }
    }
  }

  /** Of every entry that is kept the step is ready if the entry lists nothing and else waits;
      there are no other steps. */
  ghost predicate HasInitial(definition: seq<WorkflowStep>, steps: map<StepId, StepStatus>) {
    && (forall m :: 0 <= m < |definition| && IsLast(definition, m) ==>
          && definition[m].stepId in steps
          && steps[definition[m].stepId] == if definition[m].dependsOn == [] then READY else WAITING)
    && (forall k :: k in steps ==> exists m :: 0 <= m < |definition| && IsLast(definition, m) && definition[m].stepId == k)
  }

  lemma {:induction false} StartedHasInitial(definition: seq<WorkflowStep>)
    ensures HasInitial(definition, Started(DepsOf(Table(definition, |definition|))).steps)
  {
    forall m | 0 <= m < |definition| && IsLast(definition, m)
      ensures definition[m].stepId in Table(definition, |definition|)
      ensures Table(definition, |definition|)[definition[m].stepId] == definition[m]
    {
      TableHasLast(definition, m, |definition|);
    }
    forall k | k in Table(definition, |definition|)
      ensures exists m :: 0 <= m < |definition| && IsLast(definition, m) && definition[m].stepId == k
    {
      var m := TableIsLast(definition, |definition|, k);
      assert IsLast(definition, m);
    }
  }

  class InMemoryWorkflowEngine {
    var definitions: map<string, seq<WorkflowStep>>
    var runs: map<RunId, WorkflowRun>

    constructor ()
      ensures Valid() && definitions == map[] && runs == map[]
    {
      definitions, runs := map[], map[];
    }

    /** No two runs share a record. */
    ghost predicate Valid()
      reads this
    {
      forall r, q :: r in runs && q in runs && runs[r] == runs[q] ==> r == q
    }

    ghost function State(): map<RunId, RunState>
      reads this, runs.Values
    {
      map r | r in runs :: runs[r].State()
    }

    method RegisterWorkflow(id: string, definition: seq<WorkflowStep>)
      requires Valid()
      modifies `definitions
      ensures Valid() && definitions == old(definitions)[id := definition]
    {
      definitions := definitions[id := definition];
    }

    /** `start_run`; `id` is the fresh uuid. An unknown workflow starts nothing. */
    method StartRun(workflow: string, id: RunId) returns (found: bool)
      requires Valid() && id !in runs
      modifies `runs
      ensures Valid() && found == (workflow in definitions)
      ensures forall r :: r in old(runs) ==> r in runs && runs[r] == old(runs)[r]
      ensures found ==> id in runs && fresh(runs[id])
      ensures found ==> runs.Keys == old(runs).Keys + {id}
      ensures found ==>
                var d := definitions[workflow]; State() == old(State())[id := Started(DepsOf(Table(d, |d|)))]
      ensures found ==> State()[id].status == RunRunning && HasInitial(definitions[workflow], State()[id].steps)
      ensures !found ==> runs == old(runs)
    {
      hide Started, DepsOf, Table, HasInitial;
      if workflow !in definitions {
        return false;
      }
      var run := new WorkflowRun();
      run.steps := InitialSteps(definitions[workflow]);
      runs := runs[id := run];
      return true;
    }

    /** The loop of `start_run`. */
    static method InitialSteps(definition: seq<WorkflowStep>) returns (steps: map<StepId, StepStatus>)
      ensures RunState(RunRunning, steps) == Started(DepsOf(Table(definition, |definition|)))
      ensures HasInitial(definition, steps)
    {
      hide HasInitial;
      StartedHasInitial(definition);
      steps := map[];
      for i := 0 to |definition|
        invariant steps == Started(DepsOf(Table(definition, i))).steps
      {
        var step := definition[i];
        steps := steps[step.stepId := if step.dependsOn != [] then WAITING else READY];
      }
    }

    /** `update_step`: an unknown run or step changes nothing. */
    method UpdateStep(run: RunId, step: StepId, status: StepStatus) returns (found: bool)
      requires Valid()
      modifies if run in runs then {runs[run]} else {}
      ensures Valid() && found == (run in runs && step in old(State())[run].steps)
      ensures State() == if run in runs then old(State())[run := WithStep(old(State())[run], step, status)] else old(State())
      ensures found ==>
                var before, r := old(State())[run], State()[run];
                && r.steps == before.steps[step := status]
                && (r.status == RunCancelled <==> before.status == RunCancelled)
                && (r.status != RunCancelled ==>
                      && (r.status == RunFailed <==> exists k :: k in r.steps && r.steps[k] == FAILED)
                      && (r.status == RunCompleted <==> forall k :: k in r.steps ==> r.steps[k] == COMPLETED)
                      && (r.status == RunFailed || r.status == RunCompleted || r.status == RunRunning))
      ensures !found ==> State() == old(State())
    {
      if run !in runs {
        return false;
      }
      var r := runs[run];
      if step !in r.steps {
        return false;
      }
      r.steps := r.steps[step := status];
      r.RecomputeStatus();
      return true;
    }

    /** `cancel_run`: every unstarted step is skipped, the status stays what it is now forever. */
    method CancelRun(run: RunId) returns (found: bool)
      requires Valid()
      modifies if run in runs then {runs[run]} else {}
      ensures Valid() && found == (run in runs)
      ensures State() == if run in runs then old(State())[run := Cancelled(old(State())[run])] else old(State())
      ensures found ==>
                var before, r := old(State())[run], State()[run];
                && r.status == RunCancelled && r.steps.Keys == before.steps.Keys
                && forall k :: k in r.steps ==>
                     r.steps[k] == if before.steps[k] == PENDING || before.steps[k] == WAITING || before.steps[k] == READY
                                   then SKIPPED else before.steps[k]
    {
      if run !in runs {
        return false;
      }
      var r := runs[run];
      r.status := RunCancelled;
      ghost var before := r.steps;
      var left := r.steps.Keys;
      while left != {}
        invariant left <= before.Keys == r.steps.Keys && r.status == RunCancelled
        invariant forall k :: k in left ==> r.steps[k] == before[k]
        invariant forall k :: k in before && k !in left ==>
                                r.steps[k] == if Unstarted(before[k]) then SKIPPED else before[k]
      {
        var k :| k in left;
        if Unstarted(r.steps[k]) {
          r.steps := r.steps[k := SKIPPED];
        }
        left := left - {k};
      }
      assert r.State() == Cancelled(old(State())[run]);
      return true;
    }
  }
}
