/** Working memory of a run, its counters and its configuration. */
module Memory {
  import opened Options
  import opened Json
  import opened Plans

  datatype ToolEvidence = ToolEvidence(
    taskId: string,
    toolName: string,
    ok: bool,
    data: Fields,
    failureType: Option<string>,
    retryable: bool,
    ambiguous: bool)

  datatype TaskExecution = TaskExecution(
    taskId: string,
    status: TaskStatus,
    attempt: nat,
    toolName: string,
    failureType: Option<string>)

  datatype Decision = Complete | Continue | Reflect | Replan | Fail

  datatype ReviewResult = ReviewResult(
    completed: bool,
    decision: Decision,
    failureType: Option<string>,
    reason: string,
    missingEvidence: seq<string>,
    recommended: Option<Decision>)

  datatype Reflection = Reflection(
    number: nat,
    taskId: Option<string>,
    failureType: string,
    reason: string,
    missingEvidence: seq<string>,
    recommended: Decision)

  datatype WorkingMemory = WorkingMemory(
    currentPlan: Option<TaskPlan>,
    evidence: seq<ToolEvidence>,
    executions: seq<TaskExecution>,
    reviews: seq<ReviewResult>,
    reflections: seq<Reflection>,
    episodes: seq<string>,
    finalOutcome: Option<string>)

  datatype Counters = Counters(
    steps: nat,
    plannerCalls: nat,
    reviewerCalls: nat,
    modelCalls: nat,
    toolCalls: nat,
    retries: nat,
    failures: nat,
    replans: nat,
    reflections: nat)

  datatype Config = Config(
    maxSteps: nat,
    maxReplans: nat,
    maxReflections: nat,
    maxTaskAttempts: nat,
    repeatedTaskLimit: nat,
    repeatedPlanLimit: nat,
    maxModelCalls: nat,
    maxToolCalls: nat,
    plannerAttempts: nat,
    sideEffecting: set<string>,
    idempotent: set<string>)
  {
    /** The bounds the configuration models enforce. */
    ghost predicate Valid() {
      && 4 <= maxSteps <= 1000
      && maxReplans <= 20 && maxReflections <= 50
      && 1 <= maxTaskAttempts <= 20
      && 1 <= repeatedTaskLimit <= 20
      && 1 <= repeatedPlanLimit <= 20
      && 1 <= maxModelCalls <= 200
      && 1 <= maxToolCalls <= 1000
      && 1 <= plannerAttempts <= 10
      && idempotent <= sideEffecting
    }
  }
}
