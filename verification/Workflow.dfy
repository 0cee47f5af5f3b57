/** Workflow definitions, run and step statuses (orchestrator/workflow_dag.py). */
module Workflow {

  datatype StepId = StepId(name: string)
  datatype RunId = RunId(name: string)

  datatype StepStatus = PENDING | WAITING | READY | RUNNING | COMPLETED | FAILED | SKIPPED

  datatype WorkflowStatus = RunPending | RunRunning | RunCompleted | RunFailed | RunCancelled

  /** One step of a definition; prompts, agent codes and parameters carry no control flow. */
  datatype WorkflowStep = WorkflowStep(stepId: StepId, dependsOn: seq<StepId>, retryMax: int)

  /** A step that no dispatch has started yet. */
  predicate Unstarted(s: StepStatus) {
    s == PENDING || s == WAITING || s == READY
  }
}
