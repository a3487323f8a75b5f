/** What each node does to the state, as far as the properties of runs need it. */
module Effects {
  import opened Options
  import opened Json
  import opened Keys
  import opened Plans
  import opened Memory
  import opened References
  import opened Review
  import opened Notices
  import opened Scheduler
  import opened Selection
  import opened Results
  import opened Graph
  import opened Runs

  /** Nothing was executed. */
  ghost predicate Unmoved(s: State, t: State) {
    && t.memory.evidence == s.memory.evidence && t.memory.executions == s.memory.executions
    && t.trace == s.trace && t.taskFingerprints == s.taskFingerprints && t.sideEffects == s.sideEffects
  }

  /** The run is about to persist, with a reason, and nothing was executed. */
  ghost predicate Stopped(s: State, t: State) {
    && t.route == ToPersist && t.reason.Some? && Unmoved(s, t) && t.epoch == s.epoch
    && (t.plan.Some? <==> s.plan.Some?)
    && (t.plan.Some? ==> SameTasks(s.plan.value.tasks, t.plan.value.tasks))
  }

  lemma TerminalStops(s: State, reason: Termination, response: string, c: Counters)
    ensures var t := Terminal(s, reason, response, c);
            && Stopped(s, t) && t.reason == Some(reason) && t.counters == c && t.response == response
            && t.route == ToPersist && t.memory == s.memory && t.plan == s.plan && t.current == s.current
  {
    assert s.plan.Some? ==> SameTasks(s.plan.value.tasks, s.plan.value.tasks);
  }

  /** A new plan has been adopted. */
  ghost predicate Adopted(env: Env, s: State, t: State) {
    && t.route == ToScheduler && Unmoved(s, t) && t.epoch == |s.memory.executions|
    && t.plan.Some? && ValidPlan(t.plan.value) && Verdict(t.plan.value.tasks) == None
    && (env.FreshPlans() ==> Fresh(t.plan.value))
    && t.current == None && t.reason == s.reason
  }

  ghost predicate SameBudget(c: Counters, d: Counters) {
    d.steps == c.steps && d.reflections == c.reflections && d.replans == c.replans && d.toolCalls == c.toolCalls
  }

  lemma AcceptEffect(env: Env, s: State, plan: TaskPlan, c: Counters)
    requires env.Valid() && ValidPlan(plan) && Verdict(plan.tasks) == None
    requires env.FreshPlans() ==> Fresh(plan)
    ensures var t := AcceptPlan(env, s, plan, c);
            && (if t.route == ToPersist then Stopped(s, t) else Adopted(env, s, t) && t.plan.value == plan)
            && t.counters == c && (t.route == ToPersist || t.route == ToScheduler)
            && t.memory.reviews == s.memory.reviews
            && (t.route == ToPersist ==> t.reason == Some(RepeatedPlan))
  {
    hide ValidPlan, Verdict, Fresh, Env.FreshPlans, PlanFingerprint;
  }

  lemma PlannerEffect(env: Env, s: State, c: Counters, replan: bool)
    requires env.Valid() && PlanValid(s)
    ensures var t := InvokePlanner(env, s, c, replan);
            && (t.route == ToPersist || t.route == ToScheduler)
            && (if t.route == ToPersist then Stopped(s, t) else Adopted(env, s, t))
            && t.memory.reviews == s.memory.reviews
            && (t.route == ToPersist ==> PlannerReason(t.reason.value))
            && t.counters.steps == c.steps && t.counters.reflections == c.reflections
            && t.counters.toolCalls == c.toolCalls
            && (if t.route == ToScheduler then t.counters.replans == c.replans + if replan then 1 else 0
                else c.replans <= t.counters.replans)
  {
    hide ValidPlan, Verdict, Fresh, Env.FreshPlans, Plan, AcceptPlan, Terminal, Stopped, Adopted;
    var d := if replan then c.(replans := c.replans + 1) else c;
    PlannedIsValid(env, d, 1);
    PlanReasons(env, d, 1);
    var p := Plan(env, d, 1);
    TerminalStops(s, MaxReplansExceeded, Text(ReplansSpent), c);
    if p.PlanReady? {
      AcceptEffect(env, s, p.plan, p.counters);
    } else {
      TerminalStops(s, p.reason, p.response, p.counters);
    }
  }

  /** Reasons that say the scheduler found nothing to run. */
  predicate InertPlan(reason: Termination) {
    reason == Deadlock || reason == NoReadyTask
  }

  /** Reasons the planner node ends a run for. */
  predicate PlannerReason(reason: Termination) {
    reason != Completion && !InertPlan(reason) && reason != MemoryFailure && reason != UnsupportedCompletionClaim
  }

  lemma PlanReasons(env: Env, c: Counters, attempt: nat)
    requires env.Valid() && 1 <= attempt <= env.config.plannerAttempts
    ensures var p := Plan(env, c, attempt);
            p.PlanStopped? ==> PlannerReason(p.reason)
    decreases env.config.plannerAttempts - attempt
  {
    hide ValidPlan, Env.Valid, Sound;
  }

  lemma DispatchEffect(s: State, c: Counters, plan: TaskPlan, choice: Option<nat>)
    requires s.plan.Some? && SameTasks(s.plan.value.tasks, plan.tasks)
    requires choice.Some? ==> choice.value < |plan.tasks|
    ensures var t := Dispatch(s, c, plan, choice);
            && t.counters == c && Unmoved(s, t) && t.epoch == s.epoch && t.memory.reviews == s.memory.reviews
            && t.plan == Some(plan)
            && match choice
               case None => Stopped(s, t) && InertPlan(t.reason.value)
               case Some(i) => t.route == ToExecutor && t.current == Some(plan.tasks[i].taskId) && t.reason == s.reason
  {
    hide SameTasks, Stuck;
  }

  function SettledPlan(plan: TaskPlan): TaskPlan {
    plan.(tasks := Readying(Blocking(plan.tasks)))
  }

  lemma ScheduleEffect(s: State, c: Counters)
    requires PlanValid(s) && s.plan.Some? && Verdict(s.plan.value.tasks) == None
    ensures Schedule(s, c) == Dispatch(s, c, SettledPlan(s.plan.value), Choice(Blocking(s.plan.value.tasks)))
    ensures SameTasks(s.plan.value.tasks, SettledPlan(s.plan.value).tasks)
    ensures var choice := Choice(Blocking(s.plan.value.tasks));
            choice.Some? ==> choice.value < |SettledPlan(s.plan.value).tasks|
  {
    hide ValidPlan, Verdict, Dispatch, SameTasks;
    SettlingKeepsTasks(s.plan.value.tasks);
  }

  /** The evidence and the history entry of one execution agree. */
  ghost predicate Records(task: PlanTask, e: ToolEvidence, x: TaskExecution) {
    && e.taskId == task.taskId == x.taskId
    && x.status == (if e.ok then Completed else Failed)
    && x.attempt == task.attempts + 1
    && task.call.Some?
  }

  /** The task after the execution recorded as `x`. */
  function Marked(task: PlanTask, e: ToolEvidence, x: TaskExecution): PlanTask {
    task.(status := x.status, attempts := x.attempt, failureReason := e.failureType)
  }

  /** Task `i` was executed: evidence and history grew by one agreeing record. */
  ghost predicate Executed(s: State, i: nat, t: State)
    requires s.plan.Some? && i < |s.plan.value.tasks|
  {
    && t.route == ToReviewer && t.reason == s.reason && t.current == s.current && t.epoch == s.epoch
    && t.memory.reviews == s.memory.reviews
    && |t.memory.evidence| == |s.memory.evidence| + 1 && |t.memory.executions| == |s.memory.executions| + 1
    && var e, x := t.memory.evidence[|s.memory.evidence|], t.memory.executions[|s.memory.executions|];
       && t.memory.evidence == s.memory.evidence + [e]
       && t.memory.executions == s.memory.executions + [x]
       && t.plan == Some(WithTask(s.plan.value, i, Marked(s.plan.value.tasks[i], e, x)))
       && Records(s.plan.value.tasks[i], e, x)
  }

  predicate RefusalReason(reason: Termination) {
    reason == RepeatedTask || reason == InvalidPlan || reason == ToolCallBudgetExhausted || reason == UnsafeRetryBlocked
  }

  lemma OutcomeEffect(env: Env, task: PlanTask, evidence: seq<ToolEvidence>, c: Counters,
                      repeated: map<string, nat>, sideEffects: set<string>)
    ensures var o := Execute(env, task, evidence, c, repeated, sideEffects);
            match o
            case Refused(u, reason, _) => SameTask(task, u) && RefusalReason(reason)
            case Finished(u, e, x, d, _, _, invoked) =>
              && Records(task, e, x) && u == Marked(task, e, x)
              && d.steps == c.steps && d.replans == c.replans && d.reflections == c.reflections
              && d.toolCalls == (c.toolCalls + if invoked.Some? then 1 else 0)
              && (e.ok ==> invoked.Some?)
  {
    hide Resolve, CanonicalCall, Succeeded, FailureType, Flag, ErrorOf, ResultOf, Count;
  }

  lemma ExecuteEffect(env: Env, s: State, c: Counters, i: nat)
    requires s.plan.Some? && s.current.Some? && IndexOf(s.plan.value.tasks, s.current.value) == Some(i)
    ensures var t := ExecuteCurrent(env, s, c);
            && (if Executed(s, i, t) then
                  && t.counters.toolCalls == c.toolCalls + |t.trace| - |s.trace|
                  && |s.trace| <= |t.trace| <= |s.trace| + 1
                  && (t.memory.evidence[|s.memory.evidence|].ok ==> |t.trace| == |s.trace| + 1)
                else Stopped(s, t) && RefusalReason(t.reason.value) && t.counters == c)
            && t.counters.steps == c.steps && t.counters.replans == c.replans && t.counters.reflections == c.reflections
            && t.memory.reviews == s.memory.reviews
  {
    hide Execute, IndexOf, Records, Marked;
    var task := s.plan.value.tasks[i];
    OutcomeEffect(env, task, s.memory.evidence, c, s.taskFingerprints, s.sideEffects);
    var o := Execute(env, task, s.memory.evidence, c, s.taskFingerprints, s.sideEffects);
    TerminalStops(s, RepeatedTask, Text(AttemptsSpent), c);
  }

  /** What a review leaves alone, and where it may lead. */
  ghost predicate ReviewMoves(s: State, c: Counters, t: State) {
    && Unmoved(s, t) && t.epoch == s.epoch && t.plan == s.plan && t.current == s.current
    && SameBudget(c, t.counters)
    && (t.route == ToPersist ==> t.reason.Some? && t.reason != Some(MemoryFailure))
    && (t.route == ToPersist || t.route == ToScheduler || t.route == ToReflection || t.route == ToReplan)
    && (t.route != ToPersist ==> t.reason == s.reason)
    && (t.route == ToReflection ==> t.memory.reviews != [])
  }

  lemma ActEffect(s: State, current: PlanTask, memory: WorkingMemory, c: Counters, review: ReviewResult,
                  candidate: string)
    requires memory.evidence == s.memory.evidence && memory.executions == s.memory.executions && memory.reviews != []
    ensures ReviewMoves(s, c, ActOnReview(s, current, memory, c, review, candidate))
  {
  }

  lemma ReviewEffect(env: Env, s: State, c: Counters)
    requires s.plan.Some? && s.current.Some? && IndexOf(s.plan.value.tasks, s.current.value).Some?
    ensures ReviewMoves(s, c, ReviewCurrent(env, s, c))
  {
    hide EvidenceReview, Candidate, IndexOf, ActOnReview;
    var tasks := s.plan.value.tasks;
    var i := IndexOf(tasks, s.current.value).value;
    var memory := s.memory.(currentPlan := s.plan);
    var asked := c.(reviewerCalls := c.reviewerCalls + 1);
    var reply := ReviewOf(env, c.reviewerCalls, tasks, tasks[i], memory);
    if reply.Reviewed? {
      ActEffect(s, tasks[i], memory.(reviews := memory.reviews + [reply.review]), asked, reply.review,
                Candidate(env, tasks, memory).GetOr(""));
    }
  }

  lemma ReflectEffect(env: Env, s: State, c: Counters)
    requires s.memory.reviews != []
    ensures var t := ReflectOnReview(env, s, c);
            && (Stopped(s, t) || (t.route == ToReplan && Unmoved(s, t) && t.epoch == s.epoch && t.reason == s.reason))
            && (t.route == ToPersist ==> t.reason == Some(MaxReflectionsExceeded))
            && t.plan == s.plan && t.current == s.current
            && t.counters.steps == c.steps && t.counters.replans == c.replans && t.counters.toolCalls == c.toolCalls
            && t.counters.reflections == c.reflections + if t.route == ToReplan then 1 else 0
  {
    assert s.plan.Some? ==> SameTasks(s.plan.value.tasks, s.plan.value.tasks);
  }
}
