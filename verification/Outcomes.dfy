/** What a finished run shows, with the evidence reviewer and fresh plans: it never ends for
    want of a runnable task, and "completed" is backed by the evidence of the final plan. */
module Outcomes {
  import opened Options
  import opened Json
  import opened Plans
  import opened Graphs
  import opened Memory
  import opened Review
  import opened Scheduler
  import opened Selection
  import opened Graph
  import opened Runs
  import opened Effects
  import opened Accounting
  import opened Epochs
  import opened Progress
  import opened Justified

  // ---------------------------------------------------------------------
  // Tool calls against evidence, and the epoch of the first plan

  function Successes(evidence: seq<ToolEvidence>): (n: nat)
    ensures n <= |evidence|
    ensures (forall i | 0 <= i < |evidence| :: evidence[i].ok) ==> n == |evidence|
  {
    if evidence == [] then 0
    else
      var last := |evidence| - 1;
      Successes(evidence[..last]) + if evidence[last].ok then 1 else 0
  }

  /** Successful evidence never outnumbers the calls made, nor calls the evidence; and without
      a replan the history is that of the first plan. */
  ghost predicate Tallied(s: State) {
    && Successes(s.memory.evidence) <= |s.trace| <= |s.memory.evidence|
    && (s.counters.replans == 0 ==> s.epoch == 0)
  }

  /** At most one execution was added, with its call if it succeeded. */
  ghost predicate Grew(s: State, t: State) {
    || Unmoved(s, t)
    || (exists e ::
          && t.memory.evidence == s.memory.evidence + [e]
          && |s.trace| + (if e.ok then 1 else 0) <= |t.trace| <= |s.trace| + 1)
  }

  lemma GrowthKeepsTally(s: State, t: State)
    requires Tallied(s) && Grew(s, t) && (t.counters.replans == 0 ==> t.epoch == 0)
    ensures Tallied(t)
  {
    if !Unmoved(s, t) {
      var e :| && t.memory.evidence == s.memory.evidence + [e]
               && |s.trace| + (if e.ok then 1 else 0) <= |t.trace| <= |s.trace| + 1;
      assert t.memory.evidence[..|t.memory.evidence| - 1] == s.memory.evidence;
    }
  }

  lemma ExecutionGrows(env: Env, s: State, c: Counters)
    requires PlanSound(s) && Placed(s)
    ensures var t := ExecuteCurrent(env, s, c); Grew(s, t) && t.epoch == s.epoch
  {
    hide ExecuteCurrent, ValidPlan, Verdict, Ids, IndexOf, SameTasks;
    IndexOfMember(s.plan.value.tasks, s.current.value);
    ExecuteEffect(env, s, c, IndexOf(s.plan.value.tasks, s.current.value).value);
    var t := ExecuteCurrent(env, s, c);
    if !Unmoved(s, t) {
      var e := t.memory.evidence[|s.memory.evidence|];
      assert t.memory.evidence == s.memory.evidence + [e];
    }
  }

  lemma WorkKeepsTally(env: Env, node: Node, s: State)
    requires env.Valid() && Accounting.Sound(env, Configuration(node, s)) && Tallied(s)
    ensures Tallied(Work(env, node, s, Counted(s.counters)))
  {
    hide Env.Valid, ValidPlan, PlanSound, InvokePlanner, Schedule, ExecuteCurrent, ReviewCurrent,
         ReflectOnReview, Retrieve, Ids, Grew;
    var c, t := Counted(s.counters), Work(env, node, s, Counted(s.counters));
    match node
    case Planner => PlannerEffect(env, s, c, false); UnmovedGrew(s, t); GrowthKeepsTally(s, t);
    case ReplanNode => PlannerEffect(env, s, c, true); UnmovedGrew(s, t); GrowthKeepsTally(s, t);
    case SchedulerNode => ScheduleKeeps(s, c); SchedulerShape(s, c); UnmovedGrew(s, t); GrowthKeepsTally(s, t);
    case ExecutorNode => ExecutorShape(env, s, c); ExecutionGrows(env, s, c); GrowthKeepsTally(s, t);
    case ReviewerNode =>
      IndexOfMember(s.plan.value.tasks, s.current.value);
      ReviewEffect(env, s, c);
      UnmovedGrew(s, t);
      GrowthKeepsTally(s, t);
    case ReflectionNode => ReflectEffect(env, s, c); UnmovedGrew(s, t); GrowthKeepsTally(s, t);
    case RetrieveMemory => RetrieveKeepsReplans(env, s, c); UnmovedGrew(s, t); GrowthKeepsTally(s, t);
    case _ =>
  }

  lemma UnmovedGrew(s: State, t: State)
    ensures Unmoved(s, t) ==> Grew(s, t)
  {
  }

  lemma RetrieveKeepsReplans(env: Env, s: State, c: Counters)
    ensures Unmoved(s, Retrieve(env, s, c)) && Retrieve(env, s, c).epoch == s.epoch && Retrieve(env, s, c).counters == c
  {
  }

  lemma EndsKeepTally(env: Env, s: State)
    requires Tallied(s)
    ensures Tallied(Persist(env, s)) && Tallied(OutOfSteps(s))
  {
    hide Successes;
  }

  lemma TalliedAfterStep(env: Env, k: Configuration)
    requires env.Valid() && Accounting.Sound(env, k) && Tallied(k.state)
    ensures Tallied(Step(env, k).state)
  {
    hide Env.Valid, ValidPlan, PlanSound, Placed, Accounted, Tallied, Work, Persist, OutOfSteps;
    EndsKeepTally(env, k.state);
    if !Ending(k.node) && k.state.counters.steps < env.config.maxSteps {
      WorkKeepsTally(env, k.node, k.state);
    }
  }

  lemma {:induction false} AlwaysTallied(env: Env, k: nat)
    requires env.Valid()
    ensures Tallied(At(env, k).state)
  {
    hide RunNode, Env.Valid, Accounting.Sound, Successes;
    if k > 0 {
      AlwaysTallied(env, k - 1);
      AlwaysSound(env, k - 1);
      NextOf(env, k - 1);
      TalliedAfterStep(env, At(env, k - 1));
    } else {
      assert Successes([]) == 0 by { NoSuccesses(); }
    }
  }

  lemma NoSuccesses()
    ensures Successes([]) == 0
  {
  }

  // ---------------------------------------------------------------------
  // Deadlock freedom

  /** The scheduler node always finds a task: it never raises, and leads to the executor. */
  lemma SchedulerAlwaysServes(env: Env, k: nat)
    requires Wired(env)
    ensures var c := At(env, k);
            c.node == SchedulerNode && c.state.counters.steps < env.config.maxSteps ==>
              && At(env, k + 1).node == ExecutorNode
              && c.state.plan.Some? && Selecting(c.state.plan.value.tasks).Settling?
  {
    hide At, Env.Valid, Env.FreshPlans, Supported, Schedule, ValidTask, Lively;
    AlwaysSound(env, k);
    AlwaysSupported(env, k);
    NextOf(env, k);
    var c := At(env, k);
    if c.node == SchedulerNode && c.state.counters.steps < env.config.maxSteps {
      SupportedAfterScheduler(env, c.state, Counted(c.state.counters));
    }
  }

  /** No run ends for want of a runnable task. */
  lemma NeverStuck(env: Env)
    requires Wired(env)
    ensures Final(env).reason.Some?
    ensures Final(env).reason != Some(Deadlock) && Final(env).reason != Some(NoReadyTask)
  {
    hide At, Final, Env.Valid, Env.FreshPlans;
    var p := FinalIsPersisted(env);
    AlwaysSupported(env, p);
  }

  // ---------------------------------------------------------------------
  // Justified completion

  function TaskIds(h: History): (ids: seq<string>)
    ensures |ids| == |h| && forall i | 0 <= i < |h| :: ids[i] == h[i].taskId
  {
    seq(|h|, i requires 0 <= i < |h| => h[i].taskId)
  }

  /** All of the plan's tasks, each once, each after everything it depends on, all completed. */
  ghost predicate LinearExtension(tasks: seq<PlanTask>, h: History)
    requires DistinctIds(tasks)
  {
    && multiset(TaskIds(h)) == multiset(IdList(tasks))
    && Ordered(tasks, h)
    && forall i | 0 <= i < |h| :: h[i].status == Completed
  }

  lemma {:induction false} DistinctCount(s: seq<string>, x: string)
    requires Distinct(s)
    ensures multiset(s)[x] == if x in s then 1 else 0
  {
    if s != [] {
      var last := |s| - 1;
      assert s == s[..last] + [s[last]];
      DistinctCount(s[..last], x);
    }
  }

  lemma SameMembers(s: seq<string>, t: seq<string>)
    requires Distinct(s) && Distinct(t) && forall x :: x in s <==> x in t
    ensures multiset(s) == multiset(t)
  {
    forall x ensures multiset(s)[x] == multiset(t)[x] {
      DistinctCount(s, x);
      DistinctCount(t, x);
    }
  }

  lemma CompletedPlanIsExtended(tasks: seq<PlanTask>, h: History)
    requires DistinctIds(tasks) && Ordered(tasks, h) && Reflected(tasks, h) && AllCompleted(tasks)
    ensures LinearExtension(tasks, h)
  {
    var ids, all := TaskIds(h), IdList(tasks);
    forall i | 0 <= i < |tasks| ensures tasks[i].taskId in ids {
      assert tasks[i] in tasks && MarkedBy(tasks[i], h);
      var x :| x in h && x.taskId == tasks[i].taskId && x.status == Completed;
      var j :| 0 <= j < |h| && h[j] == x;
      assert ids[j] == tasks[i].taskId;
    }
    forall i | 0 <= i < |h| ensures ids[i] in all && h[i].status == Completed {
      ExecutedIsCompleted(tasks, h, i);
    }
    SameMembers(ids, all);
  }

  lemma ExecutedIsCompleted(tasks: seq<PlanTask>, h: History, i: nat)
    requires DistinctIds(tasks) && Ordered(tasks, h) && Reflected(tasks, h) && AllCompleted(tasks) && i < |h|
    ensures h[i].taskId in IdList(tasks) && h[i].status == Completed
  {
    assert h[i].taskId in Ids(tasks);
    var k :| 0 <= k < |tasks| && tasks[k].taskId == h[i].taskId;
    assert IdList(tasks)[k] == h[i].taskId;
    assert tasks[k] in tasks && MarkedBy(tasks[k], h) && h[i] in h;
    var x :| x in h && x.taskId == h[i].taskId && x.status == Completed;
    var j :| 0 <= j < |h| && h[j] == x;
    assert i == j;
  }

  /** What "completed" means. */
  lemma CompletionIsJustified(env: Env)
    requires Wired(env) && Final(env).reason == Some(Completion)
    ensures env.writeOk
    ensures var s := Final(env);
            && s.plan.Some? && ValidPlan(s.plan.value) && AllCompleted(s.plan.value.tasks)
            && s.epoch <= |s.memory.executions| == |s.memory.evidence|
            && LinearExtension(s.plan.value.tasks, Current(s))
            && (forall i | s.epoch <= i < |s.memory.evidence| ::
                  Useful(s.memory.evidence[i]) && s.memory.evidence[i].taskId == s.memory.executions[i].taskId)
            && Built(env, s) && !HasUnsupportedClaim(s.response, s.memory.evidence)
            && (s.counters.replans == 0 ==>
                  s.counters.toolCalls == |s.memory.evidence| == |s.memory.executions| == |s.plan.value.tasks|)
  {
    hide At, Final, Env.Valid, Env.FreshPlans, HasUnsupportedClaim, ValidTask, Reflected, AllCompleted, LinearExtension;
    var p := FinalIsPersisted(env);
    var s := At(env, p).state;
    AlwaysSound(env, p);
    AlwaysTopological(env, p);
    AlwaysSupported(env, p);
    AlwaysTallied(env, p);
    CompletedPlanIsExtended(s.plan.value.tasks, Current(s));
    FinalKeeps(env, s);
    if s.counters.replans == 0 {
      FirstPlanCallsOnce(s);
    }
  }

  lemma FirstPlanCallsOnce(s: State)
    requires Tallied(s) && s.counters.replans == 0 && s.plan.Some? && DistinctIds(s.plan.value.tasks)
    requires |s.memory.evidence| == |s.memory.executions| && LinearExtension(s.plan.value.tasks, Current(s))
    requires Backed(s, |s.memory.evidence|)
    ensures |s.trace| == |s.memory.evidence| == |s.plan.value.tasks|
  {
    assert Current(s) == s.memory.executions;
    assert |multiset(TaskIds(Current(s)))| == |multiset(IdList(s.plan.value.tasks))|;
  }
}
