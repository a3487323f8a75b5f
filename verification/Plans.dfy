/** Plans, tasks and the validators their constructors run. */
module Plans {
  import opened Options
  import opened Json

  datatype TaskStatus = Pending | Ready | Running | Completed | Failed | Blocked

  /** Why an orchestration run ended. */
  datatype Termination =
    | Completion
    | InvalidPlan
    | InvalidDependency
    | CyclicDependency
    | Deadlock
    | NoReadyTask
    | MaxStepsExceeded
    | MaxReplansExceeded
    | MaxReflectionsExceeded
    | ModelCallBudgetExhausted
    | ToolCallBudgetExhausted
    | ProviderFailure
    | ExecutorFailure
    | ReviewerFailure
    | MemoryFailure
    | UnsafeRetryBlocked
    | RepeatedTask
    | RepeatedPlan
    | UnsupportedCompletionClaim

  datatype PlannedCall = PlannedCall(name: string, arguments: Fields)

  datatype PlanTask = PlanTask(
    taskId: string,
    objective: string,
    dependencies: seq<string>,
    requiredTools: seq<string>,
    call: Option<PlannedCall>,
    priority: nat,
    status: TaskStatus,
    attempts: nat,
    failureReason: Option<string>)

  datatype TaskPlan = TaskPlan(planId: string, goal: string, tasks: seq<PlanTask>)

  ghost predicate Distinct<T>(s: seq<T>) {
    forall i, j | 0 <= i < j < |s| :: s[i] != s[j]
  }

  ghost predicate DistinctIds(tasks: seq<PlanTask>) {
    forall i, j | 0 <= i < j < |tasks| :: tasks[i].taskId != tasks[j].taskId
  }

  ghost predicate ValidTask(t: PlanTask) {
    && Distinct(t.dependencies)
    && (t.call.Some? ==> WellFormed(Obj(t.call.value.arguments)))
  }

  const MAX_TASKS := 100

  /** What every constructed plan satisfies: it has tasks, but not too many, their ids are unique,
      and so are each task's dependencies. */
  ghost predicate ValidPlan(p: TaskPlan) {
    && 1 <= |p.tasks| <= MAX_TASKS
    && DistinctIds(p.tasks)
    && forall i | 0 <= i < |p.tasks| :: ValidTask(p.tasks[i])
  }

  predicate TaskId(id: string) {
    && 1 <= |id| <= 64 && 'a' <= id[0] <= 'z'
    && forall i | 0 <= i < |id| :: 'a' <= id[i] <= 'z' || '0' <= id[i] <= '9' || id[i] == '_' || id[i] == '-'
  }

  ghost predicate ConstructibleTask(t: PlanTask) {
    && TaskId(t.taskId) && 3 <= |t.objective| <= 500 && t.priority <= 1000
    && t.call.Some? && 1 <= |t.call.value.name| <= 128 && t.requiredTools == [t.call.value.name]
  }

  /** A plan that the constructors would accept, every field within its bounds. */
  ghost predicate Constructible(p: TaskPlan) {
    && ValidPlan(p) && 1 <= |p.planId| <= 128 && 3 <= |p.goal| <= 4000
    && forall i | 0 <= i < |p.tasks| :: ConstructibleTask(p.tasks[i])
  }

  /** No task has been touched yet. */
  ghost predicate Fresh(p: TaskPlan) {
    forall i | 0 <= i < |p.tasks| :: p.tasks[i].status == Pending && p.tasks[i].attempts == 0
  }

  function IndexOf(tasks: seq<PlanTask>, id: string): (i: Option<nat>)
    ensures i.Some? ==> i.value < |tasks| && tasks[i.value].taskId == id
    ensures i.Some? ==> forall j | 0 <= j < i.value :: tasks[j].taskId != id
    ensures i.None? ==> forall j | 0 <= j < |tasks| :: tasks[j].taskId != id
  {
    if tasks == [] then None
    else if tasks[0].taskId == id then Some(0)
    else
      var i := IndexOf(tasks[1..], id);
      assert forall j | 1 <= j < |tasks| :: tasks[j] == tasks[1..][j - 1];
      if i.Some? then Some(i.value + 1) else None
  }

  function Ids(tasks: seq<PlanTask>): (ids: set<string>)
    ensures forall i | 0 <= i < |tasks| :: tasks[i].taskId in ids
    ensures forall id | id in ids :: exists i | 0 <= i < |tasks| :: tasks[i].taskId == id
  {
    set t | t in tasks :: t.taskId
  }
}
