/** The orchestration graph: its state, its nodes, its edges, and the configuration that is
    reached after any number of node executions. */
module Graph {
  import opened Options
  import opened Json
  import opened Keys
  import opened Plans
  import opened Memory
  import opened References
  import opened Review
  import opened Notices
  import opened Results
  import opened Scheduler
  import opened Selection

  // ---------------------------------------------------------------------
  // What surrounds a run. The replies are arbitrary: each call gets the next one.

  datatype PlannerReply = Planned(plan: TaskPlan) | PlanningFailed(retryable: bool) | ProviderFailed(retryable: bool)

  datatype ToolReply = Raised | Returned(result: Fields)

  datatype ReviewReply = Reviewed(review: ReviewResult) | ReviewRaised

  datatype Reviewer = EvidenceBased | Scripted(script: nat -> ReviewReply)

  datatype Env = Env(
    config: Config,
    usesModel: bool,
    planner: nat -> PlannerReply,
    toolNames: set<string>,
    tools: nat -> ToolReply,
    reviewer: Reviewer,
    builder: WorkingMemory -> string,
    retrieved: Option<seq<string>>,
    writeOk: bool)
  {
    /** The configuration is in bounds and every plan was built by its validators. */
    ghost predicate Valid() {
      && config.Valid()
      && forall i: nat | planner(i).Planned? :: ValidPlan(planner(i).plan)
    }

    ghost predicate FreshPlans() {
      forall i: nat | planner(i).Planned? :: Fresh(planner(i).plan)
    }
  }

  // ---------------------------------------------------------------------
  // State

  datatype Route = ToPlanner | ToScheduler | ToExecutor | ToReviewer | ToReflection | ToReplan | ToPersist

  datatype Node =
    | RetrieveMemory | Planner | SchedulerNode | ExecutorNode | ReviewerNode
    | ReflectionNode | ReplanNode | PersistMemory | End

  datatype Invocation = Invocation(tool: string, arguments: Json, key: string)

  /** The fields of the source's state, and two history variables: every tool invocation so
      far, and where in the execution history the current plan began. */
  datatype State = State(
    memory: WorkingMemory,
    plan: Option<TaskPlan>,
    counters: Counters,
    current: Option<string>,
    route: Route,
    decision: Option<Decision>,
    reason: Option<Termination>,
    response: string,
    planFingerprints: map<string, nat>,
    taskFingerprints: map<string, nat>,
    sideEffects: set<string>,
    trace: seq<Invocation>,
    epoch: nat)

  const NO_COUNTS := Counters(0, 0, 0, 0, 0, 0, 0, 0, 0)

  const INITIAL := State(
    WorkingMemory(None, [], [], [], [], [], None), None, NO_COUNTS, None, ToPlanner, None, None, "",
    map[], map[], {}, [], 0)

  /** `counts.get(key, 0)`. */
  function Count(counts: map<string, nat>, key: string): nat {
    if key in counts then counts[key] else 0
  }

  /** `_terminal_update`. */
  function Terminal(s: State, reason: Termination, response: string, counters: Counters): State {
    s.(reason := Some(reason), response := response, counters := counters, route := ToPersist)
  }

  // ---------------------------------------------------------------------
  // Retrieval and planning

  function Retrieve(env: Env, s: State, c: Counters): State {
    match env.retrieved
    case None => Terminal(s, MemoryFailure, Text(RetrievalFailed), c)
    case Some(episodes) => s.(memory := s.memory.(episodes := episodes), counters := c, route := ToPlanner)
  }

  datatype Planning =
    | PlanReady(plan: TaskPlan, counters: Counters)
    | PlanStopped(reason: Termination, response: string, counters: Counters)

  /** The planner loop from attempt `attempt` on. */
  ghost function Plan(env: Env, c: Counters, attempt: nat): Planning
    requires env.Valid() && 1 <= attempt <= env.config.plannerAttempts
    decreases env.config.plannerAttempts - attempt
  {
    if env.usesModel && c.modelCalls >= env.config.maxModelCalls then
      PlanStopped(ModelCallBudgetExhausted, Text(PlannerBudgetSpent), c)
    else
      var called := c.(modelCalls := c.modelCalls + if env.usesModel then 1 else 0, plannerCalls := c.plannerCalls + 1);
      var failed := called.(failures := called.failures + 1);
      match env.planner(c.plannerCalls)
      case Planned(plan) =>
        (match Verdict(plan.tasks)
         case None => PlanReady(plan, called)
         case Some(reason) => PlanStopped(reason, Text(PlannedBadGraph), failed))
      case reply =>
        if !reply.retryable || attempt >= env.config.plannerAttempts then
          PlanStopped(if reply.PlanningFailed? then InvalidPlan else ProviderFailure,
                      Text(PlanningUnusable), failed)
        else Plan(env, failed.(retries := failed.retries + 1), attempt + 1)
  }

  /** `_invoke_planner` once its step is counted. */
  ghost function InvokePlanner(env: Env, s: State, c: Counters, replan: bool): State
    requires env.Valid()
  {
    if replan && c.replans >= env.config.maxReplans then
      Terminal(s, MaxReplansExceeded, Text(ReplansSpent), c)
    else
      match Plan(env, if replan then c.(replans := c.replans + 1) else c, 1)
      case PlanStopped(reason, response, counters) => Terminal(s, reason, response, counters)
      case PlanReady(plan, counters) => AcceptPlan(env, s, plan, counters)
  }

  function AcceptPlan(env: Env, s: State, plan: TaskPlan, c: Counters): State {
    var key := PlanFingerprint(plan);
    var count := Count(s.planFingerprints, key);
    if count >= env.config.repeatedPlanLimit then
      Terminal(s, RepeatedPlan, Text(PlanRepeated), c)
    else
      s.(plan := Some(plan), memory := s.memory.(currentPlan := Some(plan)), counters := c,
         planFingerprints := s.planFingerprints[key := count + 1],
         current := None, route := ToScheduler, epoch := |s.memory.executions|)
  }

  // ---------------------------------------------------------------------
  // Scheduling

  predicate Stuck(tasks: seq<PlanTask>) {
    exists t | t in tasks :: t.status == Failed || t.status == Blocked
  }

  ghost function Schedule(s: State, c: Counters): State
    requires PlanValid(s)
  {
    if s.plan.None? then Terminal(s, InvalidPlan, Text(NothingToSchedule), c)
    else
      match Selecting(s.plan.value.tasks)
      case Rejected(reason) => Terminal(s, reason, Text(ScheduleRejected), c)
      case Settling(tasks, choice) => Dispatch(s, c, s.plan.value.(tasks := tasks), choice)
  }

  function Dispatch(s: State, c: Counters, plan: TaskPlan, choice: Option<nat>): State
    requires choice.Some? ==> choice.value < |plan.tasks|
  {
    match choice
    case None =>
      Terminal(s, if Stuck(plan.tasks) then Deadlock else NoReadyTask, Text(NothingReady), c)
        .(plan := Some(plan))
    case Some(i) =>
      s.(plan := Some(plan), memory := s.memory.(currentPlan := Some(plan)), counters := c,
         current := Some(plan.tasks[i].taskId), route := ToExecutor)
  }

  // ---------------------------------------------------------------------
  // Execution

  /** `ExecutorAgent.execute`: an ExecutorError, or an outcome with the dicts it changed. */
  datatype Outcome =
    | Refused(task: PlanTask, reason: Termination, message: string)
    | Finished(task: PlanTask, evidence: ToolEvidence, execution: TaskExecution, counters: Counters,
               repeated: map<string, nat>, sideEffects: set<string>, invoked: Option<Invocation>)

  predicate Succeeded(result: Fields) {
    Flag(result, "ok") && Lookup(result, "data").Some? && Lookup(result, "data").value.Obj?
  }

  function ErrorOf(result: Fields): Fields {
    match Lookup(result, "error")
    case Some(Obj(error)) => error
    case _ => []
  }

  const RAISED: Fields := [
    Field("ok", Bool(false)),
    Field("error", Obj([Field("type", Str("executor_exception")),
                        Field("message", Str("Tool execution raised an internal exception"))]))]

  function ResultOf(reply: ToolReply): Fields {
    match reply
    case Raised => RAISED
    case Returned(result) => result
  }

  function EvidenceOf(task: PlanTask, tool: string, result: Fields): ToolEvidence {
    if Succeeded(result) then
      ToolEvidence(task.taskId, tool, true, Lookup(result, "data").value.fields, None, false, false)
    else
      var error := ErrorOf(result);
      ToolEvidence(task.taskId, tool, false, [], Some(FailureType(error)),
                   Flag(error, "retryable"), Flag(error, "ambiguous"))
  }

  /** The task after a run that left this evidence. */
  function Settle(task: PlanTask, evidence: ToolEvidence): PlanTask {
    task.(status := if evidence.ok then Completed else Failed, failureReason := evidence.failureType)
  }

  function ExecutionOf(task: PlanTask, evidence: ToolEvidence): TaskExecution {
    TaskExecution(task.taskId, task.status, task.attempts, evidence.toolName, evidence.failureType)
  }

  /** `_failed`: the attempt ends without a tool invocation. */
  function FailedBefore(task: PlanTask, tool: string, failure: string, c: Counters,
                        repeated: map<string, nat>, sideEffects: set<string>): Outcome
  {
    var evidence := ToolEvidence(task.taskId, tool, false, [], Some(failure), false, false);
    var done := Settle(task, evidence);
    Finished(done, evidence, ExecutionOf(done, evidence), c, repeated, sideEffects, None)
  }

  function Execute(env: Env, task: PlanTask, evidence: seq<ToolEvidence>, c: Counters,
                   repeated: map<string, nat>, sideEffects: set<string>): Outcome
  {
    if task.call.None? then Refused(task, InvalidPlan, Text(NoHandler))
    else
      var running := task.(attempts := task.attempts + 1, status := Running);
      var call := task.call.value;
      if call.name !in env.toolNames then
        FailedBefore(running, call.name, "unknown_tool", c, repeated, sideEffects)
      else if c.toolCalls >= env.config.maxToolCalls then
        Refused(running, ToolCallBudgetExhausted, Text(ToolBudgetSpent))
      else
        match Resolve(Obj(call.arguments), evidence)
        case None => FailedBefore(running, call.name, "invalid_evidence_reference", c, repeated, sideEffects)
        case Some(arguments) =>
          Invoke(env, running, Invocation(call.name, arguments, CanonicalCall(call.name, arguments)),
                 c, repeated, sideEffects)
  }

  function Invoke(env: Env, task: PlanTask, call: Invocation, c: Counters,
                  repeated: map<string, nat>, sideEffects: set<string>): Outcome
  {
    var sideEffecting := call.tool in env.config.sideEffecting;
    if Count(repeated, call.key) >= env.config.repeatedTaskLimit then
      Refused(task, RepeatedTask, Text(CallRepeated))
    else if sideEffecting && call.tool !in env.config.idempotent && call.key in sideEffects then
      Refused(task, UnsafeRetryBlocked, Text(ReplayBlocked))
    else
      var evidence := EvidenceOf(task, call.tool, ResultOf(env.tools(c.toolCalls)));
      var done := Settle(task, evidence);
      Finished(done, evidence, ExecutionOf(done, evidence),
               c.(toolCalls := c.toolCalls + 1, failures := c.failures + if evidence.ok then 0 else 1),
               repeated[call.key := Count(repeated, call.key) + 1],
               if sideEffecting then sideEffects + {call.key} else sideEffects,
               Some(call))
  }

  function WithTask(plan: TaskPlan, i: nat, task: PlanTask): TaskPlan
    requires i < |plan.tasks|
  {
    plan.(tasks := plan.tasks[i := task])
  }

  function ExecuteCurrent(env: Env, s: State, c: Counters): State {
    if s.plan.None? || s.current.None? then
      Terminal(s, ExecutorFailure, Text(NothingToExecute), c)
    else
      var plan := s.plan.value;
      match IndexOf(plan.tasks, s.current.value)
      case None => Terminal(s, ExecutorFailure, Text(TaskNotFound), c)
      case Some(i) =>
        if plan.tasks[i].attempts >= env.config.maxTaskAttempts then
          Terminal(s, RepeatedTask, Text(AttemptsSpent), c)
        else
          match Execute(env, plan.tasks[i], s.memory.evidence, c, s.taskFingerprints, s.sideEffects)
          case Refused(task, reason, message) =>
            Terminal(s, reason, message, c).(plan := Some(WithTask(plan, i, task)))
          case Finished(task, evidence, execution, counters, repeated, sideEffects, invoked) =>
            var plan' := WithTask(plan, i, task);
            s.(plan := Some(plan'),
               memory := s.memory.(evidence := s.memory.evidence + [evidence],
                                   executions := s.memory.executions + [execution],
                                   currentPlan := Some(plan')),
               counters := counters.(failures := if evidence.ok then counters.failures else c.failures + 1),
               taskFingerprints := repeated, sideEffects := sideEffects, route := ToReviewer,
               trace := if invoked.Some? then s.trace + [invoked.value] else s.trace)
  }

  // ---------------------------------------------------------------------
  // Review, reflection, persistence

  function Candidate(env: Env, tasks: seq<PlanTask>, memory: WorkingMemory): Option<string> {
    if AllCompleted(tasks) then Some(env.builder(memory)) else None
  }

  function ReviewOf(env: Env, call: nat, tasks: seq<PlanTask>, current: PlanTask, memory: WorkingMemory): ReviewReply {
    match env.reviewer
    case Scripted(script) => script(call)
    case EvidenceBased =>
      Reviewed(EvidenceReview(tasks, current, memory.evidence, Candidate(env, tasks, memory)))
  }

  function FailReason(review: ReviewResult): Termination {
    if review.failureType == Some(DENIED) then UnsupportedCompletionClaim
    else if review.failureType == Some(UNSAFE_RETRY) then UnsafeRetryBlocked
    else ExecutorFailure
  }

  function ReviewCurrent(env: Env, s: State, c: Counters): State {
    if s.plan.None? || s.current.None? || IndexOf(s.plan.value.tasks, s.current.value).None? then
      Terminal(s, ReviewerFailure, Text(NothingToReview), c)
    else
      var tasks := s.plan.value.tasks;
      var current := tasks[IndexOf(tasks, s.current.value).value];
      var memory := s.memory.(currentPlan := s.plan);
      var asked := c.(reviewerCalls := c.reviewerCalls + 1);
      match ReviewOf(env, c.reviewerCalls, tasks, current, memory)
      case ReviewRaised =>
        Terminal(s, ReviewerFailure, Text(ReviewFailed), asked.(failures := asked.failures + 1)).(memory := memory)
      case Reviewed(review) => ActOnReview(s, current, memory.(reviews := memory.reviews + [review]), asked, review,
                                           Candidate(env, tasks, memory).GetOr(""))
  }

  function ActOnReview(s: State, current: PlanTask, memory: WorkingMemory, c: Counters, review: ReviewResult,
                       candidate: string): State {
    var overruled := current.status == Completed && review.decision in {Reflect, Replan, Fail};
    var c' := c.(failures := c.failures + if overruled then 1 else 0);
    var next := s.(memory := memory, counters := c', decision := Some(review.decision));
    match review.decision
    case Complete =>
      next.(memory := memory.(finalOutcome := Some("completed")), reason := Some(Completion), response := candidate,
            route := ToPersist)
    case Continue => next.(route := ToScheduler)
    case Reflect => next.(route := ToReflection)
    case Replan => next.(route := ToReplan)
    case Fail => Terminal(s, FailReason(review), review.reason, c').(memory := memory)
  }

  function ReflectOnReview(env: Env, s: State, c: Counters): State {
    if c.reflections >= env.config.maxReflections then
      Terminal(s, MaxReflectionsExceeded, Text(ReflectionsSpent), c)
    else if s.memory.reviews == [] then
      Terminal(s, ReviewerFailure, Text(NothingToReflect), c)  // never reached: see Accounting.Shaped
    else
      var review := s.memory.reviews[|s.memory.reviews| - 1];
      var reflection := Reflection(c.reflections + 1, s.current, Or(review.failureType, INSUFFICIENT),
                                   review.reason, review.missingEvidence, review.recommended.GetOr(Replan));
      s.(memory := s.memory.(reflections := s.memory.reflections + [reflection]),
         counters := c.(reflections := c.reflections + 1), route := ToReplan)
  }

  /** `_persist_memory`. */
  function Persist(env: Env, s: State): State {
    var outcome := if s.reason == Some(Completion) then "completed" else "failed";
    var memory := s.memory.(currentPlan := s.plan, finalOutcome := Some(outcome));
    if env.writeOk then s.(memory := memory)
    else s.(memory := memory, reason := Some(MemoryFailure),
            response := Text(PersistenceFailed))
  }

  // ---------------------------------------------------------------------
  // The graph

  ghost predicate PlanValid(s: State) {
    s.plan.Some? ==> ValidPlan(s.plan.value)
  }

  /** The work of a node whose step has been counted in `c`. */
  ghost function Work(env: Env, node: Node, s: State, c: Counters): State
    requires env.Valid() && PlanValid(s)
  {
    match node
    case RetrieveMemory => Retrieve(env, s, c)
    case Planner => InvokePlanner(env, s, c, false)
    case SchedulerNode => Schedule(s, c)
    case ExecutorNode => ExecuteCurrent(env, s, c)
    case ReviewerNode => ReviewCurrent(env, s, c)
    case ReflectionNode => ReflectOnReview(env, s, c)
    case ReplanNode => InvokePlanner(env, s, c, true)
    case _ => s
  }

  function Counted(c: Counters): Counters {
    c.(steps := c.steps + 1)
  }

  function OutOfSteps(s: State): State {
    Terminal(s, MaxStepsExceeded,
             Text(StepsSpent), s.counters)
  }

  /** One node: no more steps, or one more step and the node's own work. */
  ghost function RunNode(env: Env, node: Node, s: State): State
    requires env.Valid() && PlanValid(s)
  {
    if node == End then s
    else if node == PersistMemory then Persist(env, s)
    else if s.counters.steps >= env.config.maxSteps then OutOfSteps(s)
    else Work(env, node, s, Counted(s.counters))
  }

  /** `_route`. */
  function Target(route: Route): Node {
    match route
    case ToPlanner => Planner
    case ToScheduler => SchedulerNode
    case ToExecutor => ExecutorNode
    case ToReviewer => ReviewerNode
    case ToReflection => ReflectionNode
    case ToReplan => ReplanNode
    case ToPersist => PersistMemory
  }

  /** The edges: retrieval always leads to the planner, persistence to the end, and every
      other node where the state's route says. */
  function Next(node: Node, route: Route): Node {
    match node
    case RetrieveMemory => Planner
    case PersistMemory => End
    case End => End
    case _ => Target(route)
  }

  datatype Configuration = Configuration(node: Node, state: State)

  ghost function Step(env: Env, k: Configuration): Configuration
    requires env.Valid() && PlanValid(k.state)
  {
    var s := RunNode(env, k.node, k.state);
    Configuration(Next(k.node, s.route), s)
  }
}
