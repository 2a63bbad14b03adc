/**
 * The workflow records shared by the planner, the template registry and the
 * round scheduler: a step names a worker, a task and the ids of the steps it
 * waits for; a plan is a named list of steps; a result is what one step
 * produced. The record module itself is not part of this model; the fields
 * and defaults follow their uses in the planner, the templates and the graph.
 */
module WorkflowSchema {
  datatype WorkflowStep = WorkflowStep(id: string, worker: string, task: string, dependsOn: seq<string> := [])

  datatype WorkflowPlan = WorkflowPlan(name: string := "dynamic", steps: seq<WorkflowStep> := [], reasoning: string := "")

  /** One entry of the append-only result log (`completed_results`). */
  datatype WorkerResult = WorkerResult(stepId: string, worker: string, task: string, output: string)

  /** The ids of the plan's steps (`{s.id for s in plan.steps}`). */
  function StepIds(steps: seq<WorkflowStep>): set<string>
  {
    set s | s in steps :: s.id
  }

  /** The ids that have a result in the log (`{r["step_id"] for r in completed_results}`). */
  function CompletedIds(results: seq<WorkerResult>): set<string>
  {
    set r | r in results :: r.stepId
  }

  lemma CompletedIdsAppend(a: seq<WorkerResult>, b: seq<WorkerResult>)
    ensures CompletedIds(a + b) == CompletedIds(a) + CompletedIds(b)
  {
    forall id | id in CompletedIds(a + b) ensures id in CompletedIds(a) + CompletedIds(b) {
      var r :| r in a + b && r.stepId == id;
      assert r in a || r in b;
    }
  }
}
