/** The orchestrator as it runs: its state in fields, its nodes as methods that count a step,
    copy what they need and write back what they return. Each method is the node of the graph
    it implements, and `Run` ends in the final state of the run. */
module Orchestrator {
  import opened Options
  import opened Json
  import opened Keys
  import opened Plans
  import opened Memory
  import opened References
  import opened Review
  import opened Notices
  import opened Scheduler
  import opened Selection
  import opened Results
  import opened Graph
  import opened Runs
  import opened Accounting

  datatype OrchestrationResult = OrchestrationResult(
    completed: bool,
    reason: Termination,
    response: string,
    plan: Option<TaskPlan>,
    executionOrder: seq<string>,
    toolSequence: seq<string>,
    episodes: seq<string>,
    reviews: seq<ReviewResult>,
    reflections: seq<Reflection>,
    evidence: seq<ToolEvidence>,
    counters: Counters)

  /** What `run` makes of the state it ends in. */
  function Summary(m: WorkingMemory, plan: Option<TaskPlan>, reason: Option<Termination>, response: string,
                   c: Counters): (r: OrchestrationResult)
    ensures |r.executionOrder| == |m.executions| && |r.toolSequence| == |m.evidence|
    ensures forall i | 0 <= i < |r.executionOrder| :: r.executionOrder[i] == m.executions[i].taskId
    ensures forall i | 0 <= i < |r.toolSequence| :: r.toolSequence[i] == m.evidence[i].toolName
    ensures reason == None ==> r.reason == ReviewerFailure && !r.completed
  {
    var why := reason.GetOr(ReviewerFailure);
    OrchestrationResult(
      why == Completion, why, response, plan,
      seq(|m.executions|, i requires 0 <= i < |m.executions| => m.executions[i].taskId),
      seq(|m.evidence|, i requires 0 <= i < |m.evidence| => m.evidence[i].toolName),
      m.episodes, m.reviews, m.reflections, m.evidence, c)
  }

  /** The state of a run whose tool boundary could not be prepared. */
  function Unprepared(env: Env): State {
    Persist(env, INITIAL.(reason := Some(ExecutorFailure), response := Text(BoundaryFailed),
                          counters := NO_COUNTS.(failures := 1)))
  }

  /** A tool's failure is counted by the executor agent, any other by the executor node. */
  lemma FailureIsCountedOnce(env: Env, task: PlanTask, evidence: seq<ToolEvidence>, c: Counters,
                             repeated: map<string, nat>, sideEffects: set<string>)
    ensures var o := Execute(env, task, evidence, c, repeated, sideEffects);
            o.Finished? ==>
              o.counters.failures == c.failures + if o.invoked.Some? && !o.evidence.ok then 1 else 0
  {
    hide Text, Resolve, CanonicalCall, Succeeded, FailureType, Flag, ErrorOf, ResultOf, Count;
  }

  class MultiAgentOrchestrator {
    const env: Env
    var memory: WorkingMemory
    var plan: Option<TaskPlan>
    var counters: Counters
    var current: Option<string>
    var route: Route
    var decision: Option<Decision>
    var reason: Option<Termination>
    var response: string
    var planFingerprints: map<string, nat>
    var taskFingerprints: map<string, nat>
    var sideEffects: set<string>
    ghost var trace: seq<Invocation>
    ghost var epoch: nat

    ghost function Contents(): State
      reads this
    {
      State(memory, plan, counters, current, route, decision, reason, response,
            planFingerprints, taskFingerprints, sideEffects, trace, epoch)
    }

    constructor (env: Env)
      ensures this.env == env && Contents() == INITIAL
    {
      this.env := env;
      memory, plan, counters, current := INITIAL.memory, None, NO_COUNTS, None;
      route, decision, reason, response := ToPlanner, None, None, "";
      planFingerprints, taskFingerprints, sideEffects := map[], map[], {};
      trace, epoch := [], 0;
    }

    /** `_terminal_update`, written back. */
    method Terminate(reason: Termination, response: string, c: Counters)
      modifies this
      ensures Contents() == Terminal(old(Contents()), reason, response, c)
    {
      this.reason, this.response, counters, route := Some(reason), response, c, ToPersist;
    }

    /** `_next_step`: the counters of one more step, or the terminal update when none is left. */
    method NextStep() returns (c: Counters, more: bool)
      modifies this
      ensures more <==> old(counters).steps < env.config.maxSteps
      ensures more ==> c == Counted(old(counters)) && Contents() == old(Contents())
      ensures !more ==> Contents() == OutOfSteps(old(Contents()))
    {
      c := counters;
      if c.steps >= env.config.maxSteps {
        Terminate(MaxStepsExceeded, Text(StepsSpent), c);
        return c, false;
      }
      return c.(steps := c.steps + 1), true;
    }

    method RetrieveMemory()
      requires env.Valid() && PlanValid(Contents())
      modifies this
      ensures Contents() == RunNode(env, Node.RetrieveMemory, old(Contents()))
    {
      hide Env.Valid, PlanValid;
      var c, more := NextStep();
      if !more { return; }
      match env.retrieved {
        case None => Terminate(MemoryFailure, Text(RetrievalFailed), c);
        case Some(episodes) =>
          memory, counters, route := memory.(episodes := episodes), c, ToPlanner;
      }
    }

    /** The `while True` loop of `_invoke_planner`. */
    method PlanningLoop(start: Counters) returns (p: Planning)
      requires env.Valid()
      ensures p == Plan(env, start, 1)
    {
      var c, attempt := start, 1;
      while true
        invariant 1 <= attempt <= env.config.plannerAttempts
        invariant Plan(env, c, attempt) == Plan(env, start, 1)
        decreases env.config.plannerAttempts - attempt
      {
        if env.usesModel {
          if c.modelCalls >= env.config.maxModelCalls {
            return PlanStopped(ModelCallBudgetExhausted, Text(PlannerBudgetSpent), c);
          }
          c := c.(modelCalls := c.modelCalls + 1);
        }
        var reply := env.planner(c.plannerCalls);
        c := c.(plannerCalls := c.plannerCalls + 1);
        if reply.Planned? {
          var error := Validate(reply.plan.tasks);
          if error.None? {
            return PlanReady(reply.plan, c);
          }
          c := c.(failures := c.failures + 1);
          return PlanStopped(error.value, Text(PlannedBadGraph), c);
        }
        c := c.(failures := c.failures + 1);
        if !reply.retryable || attempt >= env.config.plannerAttempts {
          return PlanStopped(if reply.PlanningFailed? then InvalidPlan else ProviderFailure, Text(PlanningUnusable), c);
        }
        attempt := attempt + 1;
        c := c.(retries := c.retries + 1);
      }
    }

    /** `_invoke_planner`. */
    method CallPlanner(replan: bool)
      requires env.Valid() && PlanValid(Contents())
      modifies this
      ensures Contents() == RunNode(env, if replan then ReplanNode else Node.Planner, old(Contents()))
    {
      hide Schedule, ExecuteCurrent, ReviewCurrent, ReflectOnReview, Retrieve, Text, ValidPlan, Plan, AcceptPlan;
      var c, more := NextStep();
      if !more { return; }
      if replan {
        if c.replans >= env.config.maxReplans {
          Terminate(MaxReplansExceeded, Text(ReplansSpent), c);
          return;
        }
        c := c.(replans := c.replans + 1);
      }
      var planning := PlanningLoop(c);
      if planning.PlanStopped? {
        Terminate(planning.reason, planning.response, planning.counters);
        return;
      }
      Adopt(planning.plan, planning.counters);
    }

    /** `_invoke_planner` with a usable plan in hand. */
    method Adopt(planned: TaskPlan, c: Counters)
      modifies this
      ensures Contents() == AcceptPlan(env, old(Contents()), planned, c)
    {
      hide PlanFingerprint, Text, Count;
      var fingerprint := PlanFingerprint(planned);
      var count := Count(planFingerprints, fingerprint);
      if count >= env.config.repeatedPlanLimit {
        Terminate(RepeatedPlan, Text(PlanRepeated), c);
        return;
      }
      Take(planned, planFingerprints[fingerprint := count + 1], c);
    }

    /** What the planner node returns with a new plan. */
    method Take(planned: TaskPlan, fingerprints: map<string, nat>, c: Counters)
      modifies this
      ensures Contents() ==
              old(Contents()).(
                plan := Some(planned), memory := old(memory).(currentPlan := Some(planned)), counters := c,
                planFingerprints := fingerprints, current := None, route := ToScheduler,
                epoch := |old(memory).executions|)
    {
      Remember(planned, fingerprints);
      plan, counters, current, route := Some(planned), c, None, ToScheduler;
    }

    /** The plan is noted in the memory, and an epoch begins. */
    method Remember(planned: TaskPlan, fingerprints: map<string, nat>)
      modifies this`memory, this`planFingerprints, this`epoch
      ensures memory == old(memory).(currentPlan := Some(planned)) && planFingerprints == fingerprints
      ensures epoch == |old(memory).executions|
    {
      epoch := |memory.executions|;
      memory, planFingerprints := memory.(currentPlan := Some(planned)), fingerprints;
    }

    method RunScheduler()
      requires env.Valid() && PlanValid(Contents())
      modifies this
      ensures Contents() == RunNode(env, SchedulerNode, old(Contents()))
    {
      hide InvokePlanner, ExecuteCurrent, ReviewCurrent, ReflectOnReview, Retrieve, Text, ValidTask, Verdict,
           Readying, Blocking, Choice, Dispatch;
      var c, more := NextStep();
      if !more { return; }
      if plan.None? {
        Terminate(InvalidPlan, Text(NothingToSchedule), c);
        return;
      }
      var selected := Select(plan.value.tasks);
      if selected.Rejected? {
        Terminate(selected.reason, Text(ScheduleRejected), c);
        return;
      }
      HandOver(plan.value.(tasks := selected.tasks), selected.choice, c);
    }

    /** The scheduler node once it has selected. */
    method HandOver(scheduled: TaskPlan, choice: Option<nat>, c: Counters)
      requires choice.Some? ==> choice.value < |scheduled.tasks|
      modifies this
      ensures Contents() == Dispatch(old(Contents()), c, scheduled, choice)
    {
      hide Text, Stuck;
      if choice.None? {
        Terminate(if Stuck(scheduled.tasks) then Deadlock else NoReadyTask, Text(NothingReady), c);
        plan := Some(scheduled);
        return;
      }
      memory := memory.(currentPlan := Some(scheduled));
      plan, counters, route := Some(scheduled), c, ToExecutor;
      current := Some(scheduled.tasks[choice.value].taskId);
    }

    /** `ExecutorAgent.execute`, on copies of the task, the counters, the dict and the set. */
    method ExecuteTask(given: PlanTask, start: Counters) returns (outcome: Outcome)
      ensures outcome == Execute(env, given, memory.evidence, start, taskFingerprints, sideEffects)
    {
      hide Text, Resolve, CanonicalCall, FailureType, Flag, Lookup;
      var task, c, repeated, effects := given, start, taskFingerprints, sideEffects;
      if task.call.None? {
        return Refused(task, InvalidPlan, Text(NoHandler));
      }
      task := task.(attempts := task.attempts + 1, status := Running);
      var call := task.call.value;
      if call.name !in env.toolNames {
        return FailedBefore(task, call.name, "unknown_tool", c, repeated, effects);
      }
      if c.toolCalls >= env.config.maxToolCalls {
        return Refused(task, ToolCallBudgetExhausted, Text(ToolBudgetSpent));
      }
      var resolved := Resolve(Obj(call.arguments), memory.evidence);
      if resolved.None? {
        return FailedBefore(task, call.name, "invalid_evidence_reference", c, repeated, effects);
      }
      var fingerprint := CanonicalCall(call.name, resolved.value);
      var repetitions := Count(repeated, fingerprint);
      if repetitions >= env.config.repeatedTaskLimit {
        return Refused(task, RepeatedTask, Text(CallRepeated));
      }
      repeated := repeated[fingerprint := repetitions + 1];
      var sideEffecting := call.name in env.config.sideEffecting;
      if sideEffecting && call.name !in env.config.idempotent && fingerprint in effects {
        return Refused(task, UnsafeRetryBlocked, Text(ReplayBlocked));
      }
      if sideEffecting {
        effects := effects + {fingerprint};
      }
      var result := ResultOf(env.tools(c.toolCalls));
      c := c.(toolCalls := c.toolCalls + 1);
      var evidence;
      if Succeeded(result) {
        task := task.(status := Completed, failureReason := None);
        evidence := ToolEvidence(task.taskId, call.name, true, Lookup(result, "data").value.fields, None, false, false);
      } else {
        var error := ErrorOf(result);
        task := task.(status := Failed, failureReason := Some(FailureType(error)));
        c := c.(failures := c.failures + 1);
        evidence := ToolEvidence(task.taskId, call.name, false, [], task.failureReason,
                                 Flag(error, "retryable"), Flag(error, "ambiguous"));
      }
      var execution := TaskExecution(task.taskId, task.status, task.attempts, call.name, evidence.failureType);
      return Finished(task, evidence, execution, c, repeated, effects,
             Some(Invocation(call.name, resolved.value, fingerprint)));
    }

    method RunExecutor()
      requires env.Valid() && PlanValid(Contents())
      modifies this
      ensures Contents() == RunNode(env, ExecutorNode, old(Contents()))
    {
      hide InvokePlanner, Schedule, ReviewCurrent, ReflectOnReview, Retrieve, Text, ValidPlan, Execute, IndexOf;
      var c, more := NextStep();
      if !more { return; }
      if plan.None? || current.None? {
        Terminate(ExecutorFailure, Text(NothingToExecute), c);
        return;
      }
      var place := IndexOf(plan.value.tasks, current.value);
      if place.None? {
        Terminate(ExecutorFailure, Text(TaskNotFound), c);
        return;
      }
      ExecuteAt(place.value, c);
    }

    /** The executor node once it has found its task. */
    method ExecuteAt(i: nat, c: Counters)
      requires plan.Some? && current.Some? && IndexOf(plan.value.tasks, current.value) == Some(i)
      modifies this
      ensures Contents() == ExecuteCurrent(env, old(Contents()), c)
    {
      hide Text, Execute, IndexOf;
      var p := plan.value;
      if p.tasks[i].attempts >= env.config.maxTaskAttempts {
        Terminate(RepeatedTask, Text(AttemptsSpent), c);
        return;
      }
      var outcome := ExecuteTask(p.tasks[i], c);
      FailureIsCountedOnce(env, p.tasks[i], memory.evidence, c, taskFingerprints, sideEffects);
      p := p.(tasks := p.tasks[i := outcome.task]);
      if outcome.Refused? {
        Terminate(outcome.reason, outcome.message, c);
        plan := Some(p);
        return;
      }
      var d := outcome.counters;
      if !outcome.evidence.ok && d.failures == c.failures {
        d := d.(failures := d.failures + 1);
      }
      Record(p, outcome, d);
    }

    /** What the executor node returns after an execution. */
    method Record(p: TaskPlan, outcome: Outcome, c: Counters)
      requires outcome.Finished?
      modifies this
      ensures Contents() ==
              old(Contents()).(
                plan := Some(p), counters := c, route := ToReviewer,
                memory := old(memory).(evidence := old(memory).evidence + [outcome.evidence],
                                       executions := old(memory).executions + [outcome.execution],
                                       currentPlan := Some(p)),
                taskFingerprints := outcome.repeated, sideEffects := outcome.sideEffects,
                trace := if outcome.invoked.Some? then old(trace) + [outcome.invoked.value] else old(trace))
    {
      memory := memory.(evidence := memory.evidence + [outcome.evidence],
                        executions := memory.executions + [outcome.execution], currentPlan := Some(p));
      plan, counters, route := Some(p), c, ToReviewer;
      taskFingerprints, sideEffects := outcome.repeated, outcome.sideEffects;
      trace := if outcome.invoked.Some? then trace + [outcome.invoked.value] else trace;
    }

    method RunReviewer()
      requires env.Valid() && PlanValid(Contents())
      modifies this
      ensures Contents() == RunNode(env, ReviewerNode, old(Contents()))
    {
      hide InvokePlanner, Schedule, ExecuteCurrent, ReflectOnReview, Retrieve, Text, ValidPlan, IndexOf,
           EvidenceReview, AllCompleted, ActOnReview;
      var c, more := NextStep();
      if !more { return; }
      if plan.None? || current.None? || IndexOf(plan.value.tasks, current.value).None? {
        Terminate(ReviewerFailure, Text(NothingToReview), c);
        return;
      }
      var task := plan.value.tasks[IndexOf(plan.value.tasks, current.value).value];
      var reviewed := memory.(currentPlan := plan);
      var candidate := Candidate(env, plan.value.tasks, reviewed);
      c := c.(reviewerCalls := c.reviewerCalls + 1);
      var reply := ReviewOf(env, c.reviewerCalls - 1, plan.value.tasks, task, reviewed);
      if reply.ReviewRaised? {
        Terminate(ReviewerFailure, Text(ReviewFailed), c.(failures := c.failures + 1));
        memory := reviewed;
        return;
      }
      reviewed := reviewed.(reviews := reviewed.reviews + [reply.review]);
      Act(task, reviewed, c, reply.review, candidate.GetOr(""));
    }

    /** The end of the reviewer node: count an overruled success, then follow the decision. */
    method Act(task: PlanTask, reviewed: WorkingMemory, asked: Counters, review: ReviewResult, candidate: string)
      modifies this
      ensures Contents() == ActOnReview(old(Contents()), task, reviewed, asked, review, candidate)
    {
      var c := asked;
      if review.decision in {Reflect, Replan, Fail} && task.status == Completed {
        c := c.(failures := c.failures + 1);
      }
      if review.decision == Fail {
        Terminate(FailReason(review), review.reason, c);
        memory := reviewed;
        return;
      }
      memory, counters, decision := reviewed, c, Some(review.decision);
      match review.decision {
        case Complete =>
          memory := memory.(finalOutcome := Some("completed"));
          reason, response, route := Some(Completion), candidate, ToPersist;
        case Continue => route := ToScheduler;
        case Reflect => route := ToReflection;
        case Replan => route := ToReplan;
      }
    }

    method RunReflection()
      requires env.Valid() && PlanValid(Contents())
      modifies this
      ensures Contents() == RunNode(env, ReflectionNode, old(Contents()))
    {
      hide InvokePlanner, Schedule, ExecuteCurrent, ReviewCurrent, Retrieve, Text, ValidPlan;
      var c, more := NextStep();
      if !more { return; }
      if c.reflections >= env.config.maxReflections {
        Terminate(MaxReflectionsExceeded, Text(ReflectionsSpent), c);
        return;
      }
      if memory.reviews == [] {
        Terminate(ReviewerFailure, Text(NothingToReflect), c);
        return;
      }
      var review := memory.reviews[|memory.reviews| - 1];
      c := c.(reflections := c.reflections + 1);
      var reflection := Reflection(c.reflections, current, Or(review.failureType, INSUFFICIENT), review.reason,
                                   review.missingEvidence, review.recommended.GetOr(Replan));
      memory := memory.(reflections := memory.reflections + [reflection]);
      counters, route := c, ToReplan;
    }

    method PersistMemory()
      modifies this
      ensures Contents() == Persist(env, old(Contents()))
    {
      hide Text;
      var outcome := if reason == Some(Completion) then "completed" else "failed";
      memory := memory.(currentPlan := plan, finalOutcome := Some(outcome));
      if !env.writeOk {
        reason, response := Some(MemoryFailure), Text(PersistenceFailed);
      }
    }

    /** One node of the graph. */
    method Visit(node: Node)
      requires env.Valid() && PlanValid(Contents())
      modifies this
      ensures Contents() == RunNode(env, node, old(Contents()))
    {
      hide Work, Persist, OutOfSteps, Env.Valid, PlanValid;
      match node {
        case RetrieveMemory => RetrieveMemory();
        case Planner => CallPlanner(false);
        case SchedulerNode => RunScheduler();
        case ExecutorNode => RunExecutor();
        case ReviewerNode => RunReviewer();
        case ReflectionNode => RunReflection();
        case ReplanNode => CallPlanner(true);
        case PersistMemory => PersistMemory();
        case End =>
      }
    }

    /** `graph.invoke`: follow the edges from retrieval to the end. It ends in the final state
        of the run, long before the recursion limit. */
    method InvokeGraph() returns (executed: nat)
      requires env.Valid() && Contents() == INITIAL
      modifies this
      ensures Contents() == Final(env)
      ensures executed <= env.config.maxSteps + 2 < 3 * env.config.maxSteps + 16
    {
      hide RunNode, Env.Valid;
      var node := Node.RetrieveMemory;
      executed := 0;
      ghost var p := RunsEnd(env);
      while node != End
        invariant executed <= p + 1 && Configuration(node, Contents()) == At(env, executed)
        decreases p + 1 - executed
      {
        assert executed != p + 1;
        Visit(node);
        node := Next(node, route);
        executed := executed + 1;
        NextOf(env, executed - 1);
      }
      assert executed == p + 1;
    }

    /** `run`. */
    method Run(prepared: bool) returns (result: OrchestrationResult)
      requires env.Valid() && Contents() == INITIAL
      modifies this
      ensures Contents() == if prepared then Final(env) else Unprepared(env)
      ensures result == Summary(memory, plan, reason, response, counters)
    {
      hide Final, Persist, Text;
      if prepared {
        var _ := InvokeGraph();
      } else {
        reason, response := Some(ExecutorFailure), Text(BoundaryFailed);
        counters := counters.(failures := counters.failures + 1);
        PersistMemory();
      }
      result := Summary(memory, plan, reason, response, counters);
    }
  }
}
