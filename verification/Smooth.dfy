/** A run in which nothing goes wrong: how long it takes, and what it calls. */
module Smooth {
  import opened Options
  import opened Json
  import opened Keys
  import opened Plans
  import opened Memory
  import opened References
  import opened Review
  import opened Scheduler
  import opened Selection
  import opened Graph
  import opened Answers
  import opened Runs
  import opened AtMostOnce
  import opened Progress

  // ---------------------------------------------------------------------
  // The ideal course of a plan, without nodes, budgets or reviews

  datatype Course = Course(tasks: seq<PlanTask>, evidence: seq<ToolEvidence>, executions: seq<TaskExecution>,
                           calls: seq<Invocation>)

  /** The call made for task `i`. */
  ghost function CallOf(p: Course, i: nat): Invocation
    requires i < |p.tasks| && p.tasks[i].call.Some?
    requires Resolve(Obj(p.tasks[i].call.value.arguments), p.evidence).Some?
  {
    var call := p.tasks[i].call.value;
    var arguments := Resolve(Obj(call.arguments), p.evidence).value;
    Invocation(call.name, arguments, CanonicalCall(call.name, arguments))
  }

  /** Task `i` has a known tool, its references resolve, the call stays within the limits, and
      the tool answers with data. */
  ghost predicate Fits(env: Env, p: Course, i: nat)
    requires i < |p.tasks|
  {
    && p.tasks[i].call.Some? && p.tasks[i].call.value.name in env.toolNames
    && Resolve(Obj(p.tasks[i].call.value.arguments), p.evidence).Some?
    && |p.calls| < env.config.maxToolCalls
    && Occurrences(p.calls, CallOf(p, i).key) < env.config.repeatedTaskLimit
    && !(Unrepeatable(env.config, CallOf(p, i).tool) && Made(env.config, p.calls, CallOf(p, i).key))
    && UsefulReply(env.tools(|p.calls|))
  }

  /** A side effect with this key was made. */
  ghost predicate Made(config: Config, calls: seq<Invocation>, key: string) {
    exists i | 0 <= i < |calls| :: calls[i].tool in config.sideEffecting && calls[i].key == key
  }

  /** The preferred task runs once and completes. */
  ghost function Advance(env: Env, p: Course, i: nat): Course
    requires i < |p.tasks| && Fits(env, p, i)
  {
    var task := p.tasks[i].(status := Completed, attempts := p.tasks[i].attempts + 1, failureReason := None);
    var data :| Gave(env.tools(|p.calls|), data) && data != [];
    var e := ToolEvidence(task.taskId, task.call.value.name, true, data, None, false, false);
    var x := TaskExecution(task.taskId, Completed, task.attempts, task.call.value.name, None);
    Course(Readying(p.tasks)[i := task], p.evidence + [e], p.executions + [x], p.calls + [CallOf(p, i)])
  }

  /** The course after `k` tasks; it stops where the next one does not fit. */
  ghost function Ideal(env: Env, plan: TaskPlan, k: nat): Course {
    if k == 0 then Course(plan.tasks, [], [], [])
    else
      var p := Ideal(env, plan, k - 1);
      var choice := Choice(p.tasks);
      if choice.Some? && Fits(env, p, choice.value) then Advance(env, p, choice.value) else p
  }

  /** Every task of the plan fits when its turn comes. */
  ghost predicate Smooth(env: Env, plan: TaskPlan) {
    forall k: nat | k < |plan.tasks| ::
      var p := Ideal(env, plan, k);
      Choice(p.tasks).Some? ==> Fits(env, p, Choice(p.tasks).value)
  }

  // ---------------------------------------------------------------------
  // The course completes one task at a time

  function Done(tasks: seq<PlanTask>): (n: nat)
    ensures n <= |tasks|
    ensures n == |tasks| <==> AllCompleted(tasks)
  {
    if tasks == [] then 0
    else
      var last := |tasks| - 1;
      assert tasks == tasks[..last] + [tasks[last]];
      Done(tasks[..last]) + if tasks[last].status == Completed then 1 else 0
  }

  lemma {:induction false} DoneGrows(ts: seq<PlanTask>, us: seq<PlanTask>, i: nat)
    requires |ts| == |us| && i < |ts| && ts[i].status != Completed && us[i].status == Completed
    requires forall j | 0 <= j < |ts| && j != i :: ts[j].status == Completed <==> us[j].status == Completed
    ensures Done(us) == Done(ts) + 1
  {
    hide AllCompleted;
    var last := |ts| - 1;
    if i < last {
      DoneGrows(ts[..last], us[..last], i);
    } else {
      DoneSame(ts[..last], us[..last]);
    }
  }

  lemma {:induction false} DoneSame(ts: seq<PlanTask>, us: seq<PlanTask>)
    requires |ts| == |us| && forall j | 0 <= j < |ts| :: ts[j].status == Completed <==> us[j].status == Completed
    ensures Done(us) == Done(ts)
  {
    hide AllCompleted;
    if ts != [] {
      DoneSame(ts[..|ts| - 1], us[..|us| - 1]);
    }
  }

  /** The tasks after one more step of the course. */
  lemma AdvanceCompletesOne(env: Env, p: Course, i: nat)
    requires i < |p.tasks| && Runnable(p.tasks, p.tasks[i]) && Lively(p.tasks) && Fits(env, p, i)
    ensures var q := Advance(env, p, i);
            Done(q.tasks) == Done(p.tasks) + 1 && Lively(q.tasks) && SameTasks(p.tasks, q.tasks)
  {
    hide Fits, HasStatus, CallOf, AllCompleted;
    var q := Advance(env, p, i);
    DoneGrows(p.tasks, q.tasks, i);
  }

  /** After `k` tasks of a smooth plan, `k` are completed and the rest can go on. */
  lemma {:induction false} IdealProgress(env: Env, plan: TaskPlan, k: nat)
    requires ValidPlan(plan) && Fresh(plan) && Verdict(plan.tasks) == None && Smooth(env, plan) && k <= |plan.tasks|
    ensures var p := Ideal(env, plan, k);
            && SameTasks(plan.tasks, p.tasks) && Lively(p.tasks) && Done(p.tasks) == k
            && |p.calls| == |p.evidence| == |p.executions| == k
            && (k < |plan.tasks| ==>
                  && DistinctIds(p.tasks) && Verdict(p.tasks) == None && !AllCompleted(p.tasks)
                  && Choice(p.tasks).Some? && Fits(env, p, Choice(p.tasks).value))
  {
    hide Fits, AllCompleted, Advance, Choice, ValidTask, Done, SameTasks, Lively, DistinctIds, Verdict, Runnable;
    var p := Ideal(env, plan, k);
    if k == 0 {
      FreshHasNoneDone(plan.tasks);
      FreshIsLivelyAndSame(plan.tasks);
    } else {
      IdealProgress(env, plan, k - 1);
      var before := Ideal(env, plan, k - 1);
      var i := Choice(before.tasks).value;
      ChoiceIsRunnable(before.tasks);
      AdvanceCompletesOne(env, before, i);
      AdvanceCounts(env, before, i);
      SameTasksTransitive(plan.tasks, before.tasks, p.tasks);
    }
    SameTasksSameVerdict(plan.tasks, p.tasks);
    if k < |plan.tasks| {
      NotAllDone(p.tasks);
      LivelyPlanIsServed(p.tasks);
    }
  }

  lemma SameTasksSameVerdict(ts: seq<PlanTask>, us: seq<PlanTask>)
    requires SameTasks(ts, us) && DistinctIds(ts)
    ensures |ts| == |us| && DistinctIds(us) && Verdict(ts) == Verdict(us)
  {
    hide SameTask, DistinctIds, Dependencies;
    SameTasksKeepPlan(ts, us);
  }

  lemma FreshIsLivelyAndSame(tasks: seq<PlanTask>)
    requires forall i | 0 <= i < |tasks| :: tasks[i].status == Pending
    ensures Lively(tasks) && SameTasks(tasks, tasks)
  {
  }

  lemma NotAllDone(tasks: seq<PlanTask>)
    requires Done(tasks) < |tasks|
    ensures !AllCompleted(tasks)
  {
  }

  lemma {:induction false} FreshHasNoneDone(tasks: seq<PlanTask>)
    requires forall i | 0 <= i < |tasks| :: tasks[i].status == Pending
    ensures Done(tasks) == 0
  {
    if tasks != [] {
      FreshHasNoneDone(tasks[..|tasks| - 1]);
    }
  }

  lemma ChoiceIsRunnable(tasks: seq<PlanTask>)
    ensures Choice(tasks).Some? ==> Choice(tasks).value < |tasks| && Runnable(tasks, tasks[Choice(tasks).value])
  {
    hide Runnable, BestUpTo;
    if Choice(tasks).Some? {
      assert Preferred(tasks, Choice(tasks).value);
    }
  }

  lemma AdvanceCounts(env: Env, p: Course, i: nat)
    requires i < |p.tasks| && Fits(env, p, i)
    ensures var q := Advance(env, p, i);
            |q.calls| == |p.calls| + 1 && |q.evidence| == |p.evidence| + 1 && |q.executions| == |p.executions| + 1
  {
    hide Fits, CallOf;
  }

  lemma SameTasksTransitive(a: seq<PlanTask>, b: seq<PlanTask>, c: seq<PlanTask>)
    requires SameTasks(a, b) && SameTasks(b, c)
    ensures SameTasks(a, c)
  {
    forall i | 0 <= i < |a| ensures SameTask(a[i], c[i]) {
      assert SameTask(a[i], b[i]) && SameTask(b[i], c[i]);
    }
  }
}
