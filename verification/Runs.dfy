/** Runs of the graph: the configuration after any number of node executions, and what every
    one of them satisfies whatever the planner, the tools and the reviewer answer. */
module Runs {
  import opened Options
  import opened Json
  import opened Plans
  import opened Graphs
  import opened Memory
  import opened Review
  import opened Scheduler
  import opened Selection
  import opened Graph

  // ---------------------------------------------------------------------
  // Plans keep their tasks; only status, attempts and failure reason move

  ghost predicate SameTask(t: PlanTask, u: PlanTask) {
    u == t.(status := u.status, attempts := u.attempts, failureReason := u.failureReason)
  }

  ghost predicate SameTasks(ts: seq<PlanTask>, us: seq<PlanTask>) {
    |ts| == |us| && forall i | 0 <= i < |ts| :: SameTask(ts[i], us[i])
  }

  lemma SameTasksKeepPlan(ts: seq<PlanTask>, us: seq<PlanTask>)
    requires SameTasks(ts, us) && DistinctIds(ts)
    ensures DistinctIds(us) && Dependencies(ts) == Dependencies(us)
    ensures (forall i | 0 <= i < |ts| :: ValidTask(ts[i])) ==> (forall i | 0 <= i < |us| :: ValidTask(us[i]))
  {
    forall id ensures id in Ids(ts) <==> id in Ids(us) {
      if id in Ids(ts) {
        var i :| 0 <= i < |ts| && ts[i].taskId == id;
        assert us[i].taskId == id;
      }
      if id in Ids(us) {
        var i :| 0 <= i < |us| && us[i].taskId == id;
        assert ts[i].taskId == id;
      }
    }
    forall id | id in Ids(ts) ensures Dependencies(ts)[id] == Dependencies(us)[id] {
      var i :| 0 <= i < |ts| && ts[i].taskId == id;
      assert us[i].taskId == id;
    }
  }

  lemma SettlingKeepsTasks(tasks: seq<PlanTask>)
    ensures SameTasks(tasks, Readying(Blocking(tasks)))
  {
  }

  lemma ExecuteKeepsTask(env: Env, t: PlanTask, evidence: seq<ToolEvidence>, c: Counters,
                         repeated: map<string, nat>, sideEffects: set<string>)
    ensures SameTask(t, Execute(env, t, evidence, c, repeated, sideEffects).task)
  {
  }

  lemma PlannedIsValid(env: Env, c: Counters, attempt: nat)
    requires env.Valid() && 1 <= attempt <= env.config.plannerAttempts
    ensures var p := Plan(env, c, attempt);
            p.PlanReady? ==> ValidPlan(p.plan) && Verdict(p.plan.tasks) == None
    ensures var p := Plan(env, c, attempt);
            p.PlanReady? && env.FreshPlans() ==> Fresh(p.plan)
    ensures var p := Plan(env, c, attempt);
            && p.counters.steps == c.steps && p.counters.replans == c.replans
            && p.counters.reflections == c.reflections && p.counters.toolCalls == c.toolCalls
    decreases env.config.plannerAttempts - attempt
  {
  }

  lemma SettledPlanIsValid(plan: TaskPlan)
    requires ValidPlan(plan)
    ensures ValidPlan(plan.(tasks := Readying(Blocking(plan.tasks))))
  {
    SettlingKeepsTasks(plan.tasks);
    SameTasksKeepPlan(plan.tasks, Readying(Blocking(plan.tasks)));
  }

  lemma ScheduleKeepsPlanValid(s: State, c: Counters)
    requires PlanValid(s)
    ensures PlanValid(Schedule(s, c))
  {
    hide ValidPlan, Verdict, Readying, Blocking, Choice;
    if s.plan.Some? {
      SettledPlanIsValid(s.plan.value);
    }
  }

  lemma WithTaskKeepsPlanValid(plan: TaskPlan, i: nat, task: PlanTask)
    requires i < |plan.tasks| && ValidPlan(plan) && SameTask(plan.tasks[i], task)
    ensures ValidPlan(WithTask(plan, i, task))
  {
    SameTasksKeepPlan(plan.tasks, plan.tasks[i := task]);
  }

  lemma ExecuteKeepsPlanValid(env: Env, s: State, c: Counters)
    requires PlanValid(s)
    ensures PlanValid(ExecuteCurrent(env, s, c))
  {
    hide ValidPlan, Execute, WithTask;
    if s.plan.Some? && s.current.Some? && IndexOf(s.plan.value.tasks, s.current.value).Some? {
      var plan := s.plan.value;
      var i := IndexOf(plan.tasks, s.current.value).value;
      ExecuteKeepsTask(env, plan.tasks[i], s.memory.evidence, c, s.taskFingerprints, s.sideEffects);
      WithTaskKeepsPlanValid(plan, i, Execute(env, plan.tasks[i], s.memory.evidence, c, s.taskFingerprints,
        s.sideEffects).task);
    }
  }

  lemma InvokePlannerKeepsPlanValid(env: Env, s: State, c: Counters, replan: bool)
    requires env.Valid() && PlanValid(s)
    ensures PlanValid(InvokePlanner(env, s, c, replan))
  {
    hide ValidPlan, Plan;
    PlannedIsValid(env, if replan then c.(replans := c.replans + 1) else c, 1);
  }

  lemma ReviewKeepsPlan(env: Env, s: State, c: Counters)
    ensures ReviewCurrent(env, s, c).plan == s.plan
  {
    hide EvidenceReview, Candidate, IndexOf;
  }

  lemma WorkKeepsPlanValid(env: Env, node: Node, s: State, c: Counters)
    requires env.Valid() && PlanValid(s)
    ensures PlanValid(Work(env, node, s, c))
  {
    hide ValidPlan, Schedule, ExecuteCurrent, InvokePlanner, ReviewCurrent;
    match node
    case Planner => InvokePlannerKeepsPlanValid(env, s, c, false);
    case ReplanNode => InvokePlannerKeepsPlanValid(env, s, c, true);
    case SchedulerNode => ScheduleKeepsPlanValid(s, c);
    case ExecutorNode => ExecuteKeepsPlanValid(env, s, c);
    case ReviewerNode => ReviewKeepsPlan(env, s, c);
    case _ =>
  }

  lemma StepKeepsPlanValid(env: Env, node: Node, s: State)
    requires env.Valid() && PlanValid(s)
    ensures PlanValid(RunNode(env, node, s))
  {
    hide ValidPlan, Work;
    WorkKeepsPlanValid(env, node, s, Counted(s.counters));
  }

  /** The configuration after `k` node executions. */
  ghost function At(env: Env, k: nat): (c: Configuration)
    requires env.Valid()
    ensures PlanValid(c.state)
  {
    if k == 0 then Configuration(RetrieveMemory, INITIAL)
    else
      var before := At(env, k - 1);
      StepKeepsPlanValid(env, before.node, before.state);
      Step(env, before)
  }
}
