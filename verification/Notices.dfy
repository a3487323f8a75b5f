/** The fixed sentences a run can end with. */
module Notices {

  datatype Notice =
    | RetrievalFailed
    | PlannerBudgetSpent
    | PlannedBadGraph
    | PlanningUnusable
    | ReplansSpent
    | PlanRepeated
    | NothingToSchedule
    | ScheduleRejected
    | NothingReady
    | NoHandler
    | ToolBudgetSpent
    | CallRepeated
    | ReplayBlocked
    | NothingToExecute
    | TaskNotFound
    | AttemptsSpent
    | NothingToReview
    | ReviewFailed
    | ReflectionsSpent
    | NothingToReflect
    | PersistenceFailed
    | StepsSpent
    | BoundaryFailed

  function Text(notice: Notice): string {
    match notice
    case RetrievalFailed => "Episodic memory retrieval failed safely."
    case PlannerBudgetSpent => "Planner model-call budget was exhausted."
    case PlannedBadGraph => "Planner produced an invalid dependency graph."
    case PlanningUnusable => "Planner failed to produce a usable structured plan."
    case ReplansSpent => "The bounded replanning budget was exhausted."
    case PlanRepeated => "The planner repeated the same effective plan too many times."
    case NothingToSchedule => "Scheduler received no plan."
    case ScheduleRejected => "Scheduler rejected the dependency graph."
    case NothingReady => "No dependency-ready task is available."
    case NoHandler => "The task has no registered executable handler"
    case ToolBudgetSpent => "Tool-call budget was exhausted before the next task execution"
    case CallRepeated => "Repeated task execution limit was reached"
    case ReplayBlocked => "Replay of a non-idempotent side effect was blocked"
    case NothingToExecute => "Executor received no scheduled task."
    case TaskNotFound => "Executor could not locate the scheduled task."
    case AttemptsSpent => "Task attempt budget was exhausted."
    case NothingToReview => "Reviewer received incomplete orchestration state."
    case ReviewFailed => "Reviewer failed safely."
    case ReflectionsSpent => "The bounded reflection budget was exhausted."
    case NothingToReflect => "Reflection received no review."
    case PersistenceFailed => "Orchestration ended, but episodic memory persistence failed."
    case StepsSpent => "Orchestration stopped before the next node because its step budget was exhausted."
    case BoundaryFailed => "Orchestration could not prepare its discovered tool boundary."
  }
}
