/** Execution within one plan epoch, for freshly planned work and any reviewer: each task runs
    at most once, after all its dependencies completed, and reads only this epoch's evidence. */
module Epochs {
  import opened Options
  import opened Json
  import opened Plans
  import opened Graphs
  import opened Memory
  import opened Scheduler
  import opened Selection
  import opened Graph
  import opened Runs
  import opened Effects
  import opened Accounting

  type History = seq<TaskExecution>

  ghost predicate Ran(h: History, id: string, status: TaskStatus) {
    exists x | x in h :: x.taskId == id && x.status == status
  }

  /** Executions of the tasks, none twice, each after its dependencies completed. */
  ghost predicate Ordered(tasks: seq<PlanTask>, h: History)
    requires DistinctIds(tasks)
  {
    && (forall i, j | 0 <= i < j < |h| :: h[i].taskId != h[j].taskId)
    && (forall i | 0 <= i < |h| :: h[i].taskId in Ids(tasks))
    && (forall i, d | 0 <= i < |h| && Edge(Dependencies(tasks), h[i].taskId, d) :: Ran(h[..i], d, Completed))
  }

  ghost predicate MarkedBy(t: PlanTask, h: History) {
    && (t.status == Completed <==> Ran(h, t.taskId, Completed))
    && (t.status == Failed <==> Ran(h, t.taskId, Failed))
    && t.status != Running
    && t.attempts == if t.status == Completed || t.status == Failed then 1 else 0
  }

  /** The statuses of the tasks are those of the history. */
  ghost predicate Reflected(tasks: seq<PlanTask>, h: History) {
    && (forall i | 0 <= i < |tasks| :: MarkedBy(tasks[i], h))
    && (forall x | x in h :: x.status == Completed || x.status == Failed)
  }

  /** Each execution left its evidence. */
  ghost predicate Documented(m: WorkingMemory) {
    && |m.evidence| == |m.executions|
    && forall i | 0 <= i < |m.evidence| ::
         && m.evidence[i].taskId == m.executions[i].taskId
         && (m.evidence[i].ok <==> m.executions[i].status == Completed)
  }

  /** The executions of the current plan. */
  ghost function Current(s: State): History
    requires s.epoch <= |s.memory.executions|
  {
    s.memory.executions[s.epoch..]
  }

  /** The current task is waiting and all its dependencies have completed. */
  ghost predicate Prepared(s: State) {
    exists i: nat :: AtTask(s, i) && Runnable(s.plan.value.tasks, s.plan.value.tasks[i])
  }

  ghost predicate InOrder(s: State) {
    && PlanValid(s) && Documented(s.memory)
    && s.epoch <= |s.memory.executions|
    && (s.plan.Some? ==> Ordered(s.plan.value.tasks, Current(s)))
  }

  ghost predicate UpToDate(s: State)
    requires s.epoch <= |s.memory.executions|
  {
    s.plan.Some? ==> Reflected(s.plan.value.tasks, Current(s))
  }

  ghost predicate Topological(node: Node, s: State) {
    && InOrder(s)
    && (node == SchedulerNode || Working(node) ==> UpToDate(s))
    && (Ending(node) && s.reason == Some(Completion) ==> UpToDate(s))
    && (node == ExecutorNode ==> Prepared(s))
  }

  // ---------------------------------------------------------------------
  // Preservation

  lemma OrderKept(ts: seq<PlanTask>, us: seq<PlanTask>, h: History)
    requires DistinctIds(ts) && SameTasks(ts, us) && Ordered(ts, h)
    ensures DistinctIds(us) && Ordered(us, h)
  {
    hide Ran, SameTasks;
    SameTasksKeepPlan(ts, us);
    assert Dependencies(ts).Keys == Ids(ts) && Dependencies(us).Keys == Ids(us);
  }

  /** Selection moves waiting tasks only. */
  lemma SettlingKeepsMarks(tasks: seq<PlanTask>, h: History)
    requires Reflected(tasks, h)
    ensures Reflected(Readying(Blocking(tasks)), h)
  {
    hide HasStatus, Ran;
  }

  lemma SettlingKeepsCompleted(tasks: seq<PlanTask>, id: string)
    ensures HasStatus(Blocking(tasks), id, Completed) ==> HasStatus(Readying(Blocking(tasks)), id, Completed)
  {
    var bs := Blocking(tasks);
    if HasStatus(bs, id, Completed) {
      var t :| t in bs && t.taskId == id && t.status == Completed;
      var i :| 0 <= i < |bs| && bs[i] == t;
      assert Readying(bs)[i] == t;
    }
  }

  lemma ChosenIsPrepared(tasks: seq<PlanTask>, i: nat)
    requires i < |tasks| && Runnable(Blocking(tasks), Blocking(tasks)[i])
    ensures Runnable(Readying(Blocking(tasks)), Readying(Blocking(tasks))[i])
  {
    hide HasStatus, BlockTask;
    var bs := Blocking(tasks);
    var us := Readying(bs);
    forall d | d in us[i].dependencies ensures HasStatus(us, d, Completed) {
      SettlingKeepsCompleted(tasks, d);
      assert d in bs[i].dependencies;
    }
  }

  /** A waiting task has not run. */
  lemma WaitingHasNotRun(tasks: seq<PlanTask>, h: History, i: nat)
    requires i < |tasks| && Waiting(tasks[i]) && Reflected(tasks, h)
    ensures forall j | 0 <= j < |h| :: h[j].taskId != tasks[i].taskId
  {
    assert MarkedBy(tasks[i], h);
    forall j | 0 <= j < |h| ensures h[j].taskId != tasks[i].taskId {
      assert h[j] in h;
      assert Ran(h, h[j].taskId, h[j].status);
    }
  }

  /** Completed dependencies have run. */
  lemma CompletedHasRun(tasks: seq<PlanTask>, h: History, id: string)
    requires Reflected(tasks, h) && HasStatus(tasks, id, Completed)
    ensures Ran(h, id, Completed)
  {
    var t :| t in tasks && t.taskId == id && t.status == Completed;
    var i :| 0 <= i < |tasks| && tasks[i] == t;
    assert MarkedBy(tasks[i], h);
  }

  lemma OrderGrows(tasks: seq<PlanTask>, h: History, i: nat, x: TaskExecution)
    requires DistinctIds(tasks) && Ordered(tasks, h) && Reflected(tasks, h)
    requires i < |tasks| && Runnable(tasks, tasks[i]) && x.taskId == tasks[i].taskId
    ensures Ordered(tasks, h + [x])
  {
    hide HasStatus, Ran, Reflected;
    var h' := h + [x];
    WaitingHasNotRun(tasks, h, i);
    forall j, d | 0 <= j < |h'| && Edge(Dependencies(tasks), h'[j].taskId, d)
      ensures Ran(h'[..j], d, Completed)
    {
      if j < |h| {
        assert h'[..j] == h[..j];
      } else {
        assert h'[..j] == h;
        CompletedHasRun(tasks, h, d);
      }
    }
  }

  lemma RanSnoc(h: History, x: TaskExecution, id: string, status: TaskStatus)
    ensures Ran(h + [x], id, status) <==> Ran(h, id, status) || (x.taskId == id && x.status == status)
  {
    if Ran(h, id, status) {
      var y :| y in h && y.taskId == id && y.status == status;
      assert y in h + [x];
    }
    assert x in h + [x];
  }

  lemma MarksGrow(tasks: seq<PlanTask>, h: History, i: nat, e: ToolEvidence, x: TaskExecution)
    requires DistinctIds(tasks) && Reflected(tasks, h)
    requires i < |tasks| && Waiting(tasks[i]) && Records(tasks[i], e, x)
    ensures Reflected(tasks[i := Marked(tasks[i], e, x)], h + [x])
  {
    hide Ran;
    WaitingHasNotRun(tasks, h, i);
    var us := tasks[i := Marked(tasks[i], e, x)];
    forall k | 0 <= k < |us| ensures MarkedBy(us[k], h + [x]) {
      assert MarkedBy(tasks[k], h);
      RanSnoc(h, x, us[k].taskId, Completed);
      RanSnoc(h, x, us[k].taskId, Failed);
    }
  }

  // ---------------------------------------------------------------------
  // The nodes

  lemma UnmovedStaysInOrder(s: State, t: State)
    requires InOrder(s) && PlanValid(t) && Unmoved(s, t) && t.epoch == s.epoch
    requires t.plan.Some? ==> s.plan.Some? && SameTasks(s.plan.value.tasks, t.plan.value.tasks)
    ensures InOrder(t)
  {
    hide ValidTask, Ordered, SameTasks;
    if t.plan.Some? {
      OrderKept(s.plan.value.tasks, t.plan.value.tasks, Current(s));
    }
  }

  lemma AdoptedIsTopological(env: Env, s: State, t: State)
    requires InOrder(s) && Adopted(env, s, t) && env.FreshPlans()
    ensures Topological(SchedulerNode, t)
  {
    hide Verdict, ValidTask, Dependencies, Env.FreshPlans;
    assert Current(t) == [];
    forall i | 0 <= i < |t.plan.value.tasks| ensures MarkedBy(t.plan.value.tasks[i], []) {}
  }

  lemma TopologicalAfterPlanner(env: Env, node: Node, s: State)
    requires env.Valid() && env.FreshPlans() && (node == Planner || node == ReplanNode) && Topological(node, s)
    ensures var t := InvokePlanner(env, s, Counted(s.counters), node == ReplanNode);
            Topological(Target(t.route), t)
  {
    hide Env.Valid, Env.FreshPlans, InvokePlanner, InOrder, UpToDate, ValidPlan, Verdict, SameTasks;
    var t := InvokePlanner(env, s, Counted(s.counters), node == ReplanNode);
    assert PlanValid(s) by { PlanOfInOrder(s); }
    PlannerEffect(env, s, Counted(s.counters), node == ReplanNode);
    InvokePlannerKeepsPlanValid(env, s, Counted(s.counters), node == ReplanNode);
    if t.route == ToPersist {
      UnmovedStaysInOrder(s, t);
    } else {
      AdoptedIsTopological(env, s, t);
    }
  }

  lemma PlanOfInOrder(s: State)
    requires InOrder(s)
    ensures PlanValid(s) && s.epoch <= |s.memory.executions|
  {
  }

  lemma TopologicalAfterScheduler(s: State, c: Counters)
    requires Topological(SchedulerNode, s) && PlanSound(s)
    ensures var t := Schedule(s, c);
            Topological(Target(t.route), t) && (t.route == ToPersist ==> t.reason != Some(Completion))
  {
    hide ValidPlan, Verdict, Schedule, Dispatch, SettledPlan, Choice, Blocking, Readying, SameTasks, InOrder, Reflected;
    PlanOfInOrder(s);
    var plan, t := s.plan.value, Schedule(s, c);
    var choice := Choice(Blocking(plan.tasks));
    ScheduleEffect(s, c);
    ScheduleKeepsPlanValid(s, c);
    DispatchEffect(s, c, SettledPlan(plan), choice);
    UnmovedStaysInOrder(s, t);
    PlanOfInOrder(t);
    SettledIsUpToDate(s, t);
    if choice.Some? {
      ChoiceIsPrepared(plan, choice.value);
      assert AtTask(t, choice.value);
    }
  }

  lemma SettledIsUpToDate(s: State, t: State)
    requires s.plan.Some? && t.plan == Some(SettledPlan(s.plan.value))
    requires Unmoved(s, t) && s.epoch == t.epoch <= |s.memory.executions| && UpToDate(s)
    ensures UpToDate(t)
  {
    SettlingKeepsMarks(s.plan.value.tasks, Current(s));
  }

  lemma ChoiceIsPrepared(plan: TaskPlan, i: nat)
    requires Choice(Blocking(plan.tasks)) == Some(i)
    ensures i < |SettledPlan(plan).tasks| && Runnable(SettledPlan(plan).tasks, SettledPlan(plan).tasks[i])
  {
    hide Runnable, Blocking, BestUpTo;
    assert Preferred(Blocking(plan.tasks), i);
    assert |Blocking(plan.tasks)| == |plan.tasks|;
    ChosenIsPrepared(plan.tasks, i);
  }

  lemma PreparedPlace(s: State) returns (i: nat)
    requires Prepared(s) && PlanValid(s)
    ensures AtTask(s, i) && Runnable(s.plan.value.tasks, s.plan.value.tasks[i])
    ensures IndexOf(s.plan.value.tasks, s.current.value) == Some(i)
  {
    hide Runnable, ValidTask;
    i :| AtTask(s, i) && Runnable(s.plan.value.tasks, s.plan.value.tasks[i]);
  }

  lemma ExecutedStaysInOrder(s: State, i: nat, t: State)
    requires InOrder(s) && UpToDate(s) && AtTask(s, i) && Runnable(s.plan.value.tasks, s.plan.value.tasks[i])
    requires Executed(s, i, t) && PlanValid(t)
    ensures InOrder(t) && UpToDate(t)
  {
    hide ValidTask, Ordered, Reflected, Marked, HasStatus;
    var tasks, h := s.plan.value.tasks, Current(s);
    var e, x := t.memory.evidence[|s.memory.evidence|], t.memory.executions[|s.memory.executions|];
    assert Current(t) == h + [x];
    OrderGrows(tasks, h, i, x);
    MarksGrow(tasks, h, i, e, x);
    var us := t.plan.value.tasks;
    assert SameTasks(tasks, us) by { MarkedIsSame(tasks, i, e, x); }
    OrderKept(tasks, us, h + [x]);
  }

  lemma MarkedIsSame(tasks: seq<PlanTask>, i: nat, e: ToolEvidence, x: TaskExecution)
    requires i < |tasks|
    ensures SameTasks(tasks, tasks[i := Marked(tasks[i], e, x)])
  {
  }

  lemma TopologicalAfterExecutor(env: Env, s: State, c: Counters)
    requires Topological(ExecutorNode, s)
    ensures var t := ExecuteCurrent(env, s, c);
            Topological(Target(t.route), t) && (t.route == ToPersist ==> t.reason != Some(Completion))
  {
    hide ValidPlan, ExecuteCurrent, InOrder, Reflected, Runnable, IndexOf, SameTasks, Executed;
    PlanOfInOrder(s);
    var i := PreparedPlace(s);
    var t := ExecuteCurrent(env, s, c);
    ExecuteEffect(env, s, c, i);
    ExecuteKeepsPlanValid(env, s, c);
    if Executed(s, i, t) {
      ExecutedStaysInOrder(s, i, t);
      assert t.route == ToReviewer by { RouteAfterExecution(s, i, t); }
    } else {
      UnmovedStaysInOrder(s, t);
    }
  }

  lemma RouteAfterExecution(s: State, i: nat, t: State)
    requires s.plan.Some? && i < |s.plan.value.tasks| && Executed(s, i, t)
    ensures t.route == ToReviewer
  {
  }

  lemma TopologicalAfterReviewer(env: Env, s: State, c: Counters)
    requires Topological(ReviewerNode, s) && Placed(s)
    ensures var t := ReviewCurrent(env, s, c);
            Topological(Target(t.route), t)
  {
    hide ValidPlan, ReviewCurrent, InOrder, Reflected, Ids, SameTasks;
    PlanOfInOrder(s);
    IndexOfMember(s.plan.value.tasks, s.current.value);
    ReviewEffect(env, s, c);
    var t := ReviewCurrent(env, s, c);
    SameTasksReflexive(s);
    UnmovedStaysInOrder(s, t);
  }

  lemma TopologicalAfterReflection(env: Env, s: State, c: Counters)
    requires Topological(ReflectionNode, s) && s.memory.reviews != []
    ensures var t := ReflectOnReview(env, s, c);
            Topological(Target(t.route), t)
  {
    hide ValidPlan, ReflectOnReview, InOrder, Reflected, SameTasks;
    PlanOfInOrder(s);
    ReflectEffect(env, s, c);
    var t := ReflectOnReview(env, s, c);
    SameTasksReflexive(s);
    UnmovedStaysInOrder(s, t);
  }

  /** Steps that leave plan and history alone. */
  lemma TopologicalWhenIdle(node: Node, s: State, next: Node, t: State)
    requires Topological(node, s) && Rests(s, t)
    requires next == Planner || Ending(next)
    requires Ending(next) && t.reason == Some(Completion) ==> Ending(node) && s.reason == Some(Completion)
    ensures Topological(next, t)
  {
    hide ValidPlan, InOrder, UpToDate, SameTasks;
    PlanOfInOrder(s);
    SameTasksReflexive(s);
    UnmovedStaysInOrder(s, t);
    UpToDateKept(s, t);
  }

  lemma UpToDateKept(s: State, t: State)
    requires t.plan == s.plan && Unmoved(s, t) && t.epoch == s.epoch && s.epoch <= |s.memory.executions|
    ensures UpToDate(t) <==> UpToDate(s)
  {
  }

  lemma TopologicalAfterStep(env: Env, k: Configuration)
    requires env.Valid() && env.FreshPlans() && PlanValid(k.state)
    requires Accounting.Sound(env, k) && Topological(k.node, k.state)
    ensures var n := Step(env, k); Topological(n.node, n.state)
  {
    hide Env.Valid, Env.FreshPlans, ValidPlan, PlanSound, Placed, InOrder, UpToDate, Prepared, Verdict,
         Unmoved, InvokePlanner, Schedule, ExecuteCurrent, ReviewCurrent, ReflectOnReview, Retrieve, Persist,
         OutOfSteps, Rests;
    var s, n := k.state, Step(env, k);
    var c := Counted(s.counters);
    if Idle(env, k) {
      IdleStep(env, k);
      TopologicalWhenIdle(k.node, s, n.node, n.state);
    } else {
      match k.node
      case Planner => TopologicalAfterPlanner(env, Planner, s);
      case ReplanNode => TopologicalAfterPlanner(env, ReplanNode, s);
      case SchedulerNode => TopologicalAfterScheduler(s, c);
      case ExecutorNode => TopologicalAfterExecutor(env, s, c);
      case ReviewerNode => TopologicalAfterReviewer(env, s, c);
      case ReflectionNode => TopologicalAfterReflection(env, s, c);
      case _ =>
    }
  }

  /** With fresh plans, at every moment of every run, for every reviewer: the history since the
      current plan was adopted is a partial topological order of its tasks. */
  lemma {:induction false} AlwaysTopological(env: Env, k: nat)
    requires env.Valid() && env.FreshPlans()
    ensures Topological(At(env, k).node, At(env, k).state)
  {
    hide RunNode, Env.Valid, Env.FreshPlans, Prepared;
    if k > 0 {
      AlwaysTopological(env, k - 1);
      AlwaysSound(env, k - 1);
      NextOf(env, k - 1);
      TopologicalAfterStep(env, At(env, k - 1));
    }
  }
}
