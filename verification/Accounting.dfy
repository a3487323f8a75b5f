/** Step accounting and termination: exact at every node, for every planner, tool set and
    reviewer. */
module Accounting {
  import opened Options
  import opened Plans
  import opened Memory
  import opened Scheduler
  import opened Selection
  import opened Graph
  import opened Runs
  import opened Effects

  /** A plan that validation accepts. */
  ghost predicate PlanSound(s: State) {
    s.plan.Some? && ValidPlan(s.plan.value) && Verdict(s.plan.value.tasks) == None
  }

  /** The current task is one of the plan. */
  ghost predicate Placed(s: State) {
    s.plan.Some? && s.current.Some? && s.current.value in Ids(s.plan.value.tasks)
  }

  /** Task `i` of the plan is current. */
  ghost predicate AtTask(s: State, i: nat) {
    && s.plan.Some? && s.current.Some? && i < |s.plan.value.tasks|
    && s.plan.value.tasks[i].taskId == s.current.value
  }

  predicate Working(node: Node) {
    node == ExecutorNode || node == ReviewerNode || node == ReflectionNode || node == ReplanNode
  }

  /** The state each node finds is complete: a sound plan from the first scheduling on, and a
      task of that plan from the first choice on. So the defensive branches of the nodes,
      and the scheduler's error inside its node, are never taken. */
  ghost predicate Shaped(node: Node, s: State) {
    && PlanValid(s)
    && (node == SchedulerNode || Working(node) ==> PlanSound(s))
    && (Working(node) ==> Placed(s))
    && (node == ReflectionNode ==> s.memory.reviews != [])
    && (node == PersistMemory ==> s.reason.Some? && s.reason != Some(MemoryFailure))
  }

  /** The steps counted when a node is entered. */
  ghost predicate Accounted(env: Env, node: Node, s: State) {
    var c := s.counters;
    var full := 2 + c.replans + c.reflections + 3 * |s.memory.executions|;
    && c.steps <= env.config.maxSteps
    && c.toolCalls == |s.trace|
    && |s.memory.evidence| == |s.memory.executions|
    && match node
       case RetrieveMemory => c == NO_COUNTS && s.memory.executions == []
       case Planner => c.steps == 1 && c.replans == 0 && c.reflections == 0 && s.memory.executions == []
       case SchedulerNode => c.steps == full
       case ExecutorNode => c.steps == full + 1
       case ReviewerNode => c.steps + 1 == full
       case ReflectionNode => c.steps == full
       case ReplanNode => c.steps == full
       case _ => true
  }

  ghost predicate Sound(env: Env, k: Configuration) {
    Shaped(k.node, k.state) && Accounted(env, k.node, k.state)
  }

  lemma IndexOfMember(tasks: seq<PlanTask>, id: string)
    ensures IndexOf(tasks, id).Some? <==> id in Ids(tasks)
  {
  }

  lemma SameTasksStaySound(s: State, t: State)
    requires PlanSound(s) && t.plan.Some? && ValidPlan(t.plan.value)
    requires SameTasks(s.plan.value.tasks, t.plan.value.tasks)
    ensures PlanSound(t) && Ids(t.plan.value.tasks) == Ids(s.plan.value.tasks)
  {
    var ts, us := s.plan.value.tasks, t.plan.value.tasks;
    SameTasksKeepPlan(ts, us);
    assert Dependencies(ts).Keys == Ids(ts) && Dependencies(us).Keys == Ids(us);
  }

  lemma SoundAfterPlanner(env: Env, node: Node, s: State)
    requires env.Valid() && (node == Planner || node == ReplanNode) && Sound(env, Configuration(node, s))
    requires s.counters.steps < env.config.maxSteps
    ensures var t := InvokePlanner(env, s, Counted(s.counters), node == ReplanNode);
            Sound(env, Configuration(Target(t.route), t))
  {
    hide Env.Valid, ValidPlan, Verdict, InvokePlanner, Fresh, Env.FreshPlans, SameTasks, Ids, Placed;
    PlannerEffect(env, s, Counted(s.counters), node == ReplanNode);
    InvokePlannerKeepsPlanValid(env, s, Counted(s.counters), node == ReplanNode);
  }

  lemma SchedulerShape(s: State, c: Counters)
    requires PlanSound(s)
    ensures var t := Schedule(s, c);
            && PlanValid(t) && PlanSound(t) && t.counters == c && Unmoved(s, t)
            && (if t.route == ToPersist then t.reason.Some? && InertPlan(t.reason.value)
                else t.route == ToExecutor && Placed(t))
  {
    hide Schedule, Dispatch, ValidPlan, SameTasks, Verdict, SettledPlan, Blocking, Choice, DistinctIds;
    var plan, t := s.plan.value, Schedule(s, c);
    ScheduleEffect(s, c);
    ScheduleKeepsPlanValid(s, c);
    DispatchEffect(s, c, SettledPlan(plan), Choice(Blocking(plan.tasks)));
    SameTasksStaySound(s, t);
  }

  lemma ScheduleKeeps(s: State, c: Counters)
    requires PlanSound(s)
    ensures var t := Schedule(s, c);
            t.epoch == s.epoch && t.plan.Some? && SameTasks(s.plan.value.tasks, t.plan.value.tasks)
  {
    hide Schedule, Dispatch, Verdict, ValidTask, SettledPlan, Blocking, Choice, SameTasks;
    ScheduleEffect(s, c);
    DispatchEffect(s, c, SettledPlan(s.plan.value), Choice(Blocking(s.plan.value.tasks)));
  }

  lemma SameTasksReflexive(s: State)
    ensures s.plan.Some? ==> SameTasks(s.plan.value.tasks, s.plan.value.tasks)
  {
  }

  lemma SoundAfterScheduler(env: Env, s: State)
    requires env.Valid() && Sound(env, Configuration(SchedulerNode, s)) && s.counters.steps < env.config.maxSteps
    ensures var t := Schedule(s, Counted(s.counters));
            Sound(env, Configuration(Target(t.route), t))
  {
    hide Env.Valid, PlanValid, PlanSound, Placed, Schedule;
    SchedulerShape(s, Counted(s.counters));
  }

  lemma ExecutorShape(env: Env, s: State, c: Counters)
    requires PlanSound(s) && Placed(s)
    ensures var t := ExecuteCurrent(env, s, c);
            && PlanValid(t) && PlanSound(t) && Placed(t)
            && (t.route == ToReviewer || (t.route == ToPersist && t.reason.Some? && RefusalReason(t.reason.value)))
            && t.counters.steps == c.steps && t.counters.replans == c.replans && t.counters.reflections == c.reflections
            && t.counters.toolCalls == c.toolCalls + |t.trace| - |s.trace|
            && |t.memory.executions| == |s.memory.executions| + (if t.route == ToReviewer then 1 else 0)
            && |t.memory.evidence| == |s.memory.evidence| + (if t.route == ToReviewer then 1 else 0)
  {
    hide ExecuteCurrent, ValidPlan, Verdict, Ids, IndexOf;
    var tasks, t := s.plan.value.tasks, ExecuteCurrent(env, s, c);
    IndexOfMember(tasks, s.current.value);
    var i := IndexOf(tasks, s.current.value).value;
    ExecuteEffect(env, s, c, i);
    ExecuteKeepsPlanValid(env, s, c);
    if Executed(s, i, t) {
      assert SameTasks(tasks, t.plan.value.tasks);
    }
    SameTasksStaySound(s, t);
    CurrentUnlessDispatched(env, s, c);
  }

  lemma CurrentUnlessDispatched(env: Env, s: State, c: Counters)
    ensures ExecuteCurrent(env, s, c).current == s.current
  {
    hide Execute, IndexOf, WithTask;
  }

  lemma SoundAfterExecutor(env: Env, s: State)
    requires env.Valid() && Sound(env, Configuration(ExecutorNode, s)) && s.counters.steps < env.config.maxSteps
    ensures var t := ExecuteCurrent(env, s, Counted(s.counters));
            Sound(env, Configuration(Target(t.route), t))
  {
    hide Env.Valid, PlanValid, PlanSound, Placed, ExecuteCurrent;
    ExecutorShape(env, s, Counted(s.counters));
  }

  lemma SoundAfterReviewer(env: Env, s: State)
    requires env.Valid() && Sound(env, Configuration(ReviewerNode, s)) && s.counters.steps < env.config.maxSteps
    ensures var t := ReviewCurrent(env, s, Counted(s.counters));
            Sound(env, Configuration(Target(t.route), t))
  {
    hide Env.Valid, ValidPlan, Verdict, ReviewCurrent, Ids;
    IndexOfMember(s.plan.value.tasks, s.current.value);
    ReviewEffect(env, s, Counted(s.counters));
  }

  lemma SoundAfterReflection(env: Env, s: State)
    requires env.Valid() && Sound(env, Configuration(ReflectionNode, s)) && s.counters.steps < env.config.maxSteps
    ensures var t := ReflectOnReview(env, s, Counted(s.counters));
            Sound(env, Configuration(Target(t.route), t))
  {
    hide Env.Valid, ValidPlan, Verdict, ReflectOnReview, Ids, SameTasks;
    ReflectEffect(env, s, Counted(s.counters));
  }

  lemma SoundAfterStep(env: Env, k: Configuration)
    requires env.Valid() && Sound(env, k)
    ensures Sound(env, Step(env, k))
  {
    hide ValidPlan, PlanSound, Placed, InvokePlanner, Schedule, ExecuteCurrent, ReviewCurrent, ReflectOnReview;
    var s := k.state;
    if s.counters.steps < env.config.maxSteps {
      match k.node
      case Planner => SoundAfterPlanner(env, Planner, s);
      case ReplanNode => SoundAfterPlanner(env, ReplanNode, s);
      case SchedulerNode => SoundAfterScheduler(env, s);
      case ExecutorNode => SoundAfterExecutor(env, s);
      case ReviewerNode => SoundAfterReviewer(env, s);
      case ReflectionNode => SoundAfterReflection(env, s);
      case _ =>
    }
  }

  /** Every configuration of every run is complete and exactly accounted. */
  lemma {:induction false} AlwaysSound(env: Env, k: nat)
    requires env.Valid()
    ensures Sound(env, At(env, k))
  {
    hide RunNode, Env.Valid;
    if k > 0 {
      AlwaysSound(env, k - 1);
      SoundAfterStep(env, At(env, k - 1));
    }
  }

  // ---------------------------------------------------------------------
  // Termination

  lemma WorkCountsOneStep(env: Env, node: Node, s: State)
    requires env.Valid() && Sound(env, Configuration(node, s)) && s.counters.steps < env.config.maxSteps
    requires node != PersistMemory && node != End
    ensures Work(env, node, s, Counted(s.counters)).counters.steps == s.counters.steps + 1
  {
    hide Env.Valid, ValidPlan, PlanSound, InvokePlanner, Schedule, ExecuteCurrent, ReviewCurrent, ReflectOnReview, Ids;
    var c := Counted(s.counters);
    match node
    case Planner => PlannerEffect(env, s, c, false);
    case ReplanNode => PlannerEffect(env, s, c, true);
    case SchedulerNode => SchedulerShape(s, c);
    case ExecutorNode => ExecutorShape(env, s, c);
    case ReviewerNode =>
      IndexOfMember(s.plan.value.tasks, s.current.value);
      ReviewEffect(env, s, c);
    case ReflectionNode => ReflectEffect(env, s, c);
    case _ =>
  }

  predicate Ending(node: Node) {
    node == PersistMemory || node == End
  }

  /** Nodes that neither plan nor execute nor review. */
  ghost predicate Idle(env: Env, k: Configuration) {
    Ending(k.node) || k.state.counters.steps >= env.config.maxSteps || k.node == RetrieveMemory
  }

  /** Plan, history and reviews stay. */
  ghost predicate Rests(s: State, t: State) {
    && t.plan == s.plan && Unmoved(s, t) && t.epoch == s.epoch
    && t.current == s.current && t.memory.reviews == s.memory.reviews
  }

  lemma PersistRests(env: Env, s: State)
    ensures var t := Persist(env, s);
            Rests(s, t) && ((t.reason == s.reason && t.response == s.response) || t.reason == Some(MemoryFailure))
  {
  }

  lemma OutOfStepsRests(s: State)
    ensures Rests(s, OutOfSteps(s)) && OutOfSteps(s).reason == Some(MaxStepsExceeded)
  {
  }

  lemma RetrieveRests(env: Env, s: State, c: Counters)
    ensures Rests(s, Retrieve(env, s, c))
  {
  }

  lemma IdleStep(env: Env, k: Configuration)
    requires env.Valid() && Sound(env, k) && Idle(env, k)
    ensures var s, n := k.state, Step(env, k);
            && Rests(s, n.state)
            && (if k.node == RetrieveMemory then n.node == Planner else Ending(n.node))
            && (Ending(n.node) ==>
                  || (Ending(k.node) && n.state.reason == s.reason && n.state.response == s.response)
                  || n.state.reason == Some(MemoryFailure) || n.state.reason == Some(MaxStepsExceeded))
  {
    hide PlanValid, PlanSound, Placed, Work, Rests, Persist, OutOfSteps, Retrieve;
    var s := k.state;
    PersistRests(env, s);
    OutOfStepsRests(s);
    RetrieveRests(env, s, Counted(s.counters));
    assert Rests(s, s) by { RestsReflexive(s); }
    if !Ending(k.node) {
      if s.counters.steps >= env.config.maxSteps {
        assert OutOfSteps(s).route == ToPersist by { OutOfStepsRoute(s); }
      } else {
        WorkOf(env, RetrieveMemory, s);
      }
    }
  }

  lemma RestsReflexive(s: State)
    ensures Rests(s, s)
  {
  }

  lemma OutOfStepsRoute(s: State)
    ensures OutOfSteps(s).route == ToPersist
  {
  }

  lemma WorkOf(env: Env, node: Node, s: State)
    requires env.Valid() && PlanValid(s)
    ensures var c := Counted(s.counters);
            Work(env, node, s, c) ==
              match node
              case RetrieveMemory => Retrieve(env, s, c)
              case Planner => InvokePlanner(env, s, c, false)
              case SchedulerNode => Schedule(s, c)
              case ExecutorNode => ExecuteCurrent(env, s, c)
              case ReviewerNode => ReviewCurrent(env, s, c)
              case ReflectionNode => ReflectOnReview(env, s, c)
              case ReplanNode => InvokePlanner(env, s, c, true)
              case _ => s
  {
  }

  lemma StepOrEnd(env: Env, k: Configuration)
    requires env.Valid() && Sound(env, k) && !Ending(k.node)
    ensures var n := Step(env, k);
            || n.node == PersistMemory
            || (!Ending(n.node) && n.state.counters.steps == k.state.counters.steps + 1)
  {
    hide PlanValid, ValidPlan, PlanSound, Placed, Work, Shaped;
    if k.state.counters.steps < env.config.maxSteps {
      WorkCountsOneStep(env, k.node, k.state);
    }
  }

  /** Until the run persists, the number of nodes executed is the number of steps counted. */
  lemma {:induction false} NodesAreSteps(env: Env, k: nat)
    requires env.Valid()
    ensures !Ending(At(env, k).node) ==> At(env, k).state.counters.steps == k
  {
    hide RunNode, Env.Valid;
    if k > 0 {
      NodesAreSteps(env, k - 1);
      AlwaysSound(env, k - 1);
      if !Ending(At(env, k - 1).node) {
        StepOrEnd(env, At(env, k - 1));
      }
    }
  }

  /** Persistence is entered at most once, and nothing changes after it. */
  lemma {:induction false} PersistenceIsLast(env: Env, p: nat, k: nat)
    requires env.Valid() && At(env, p).node == PersistMemory && p < k
    ensures At(env, k) == Configuration(End, Persist(env, At(env, p).state))
  {
    hide Work, Env.Valid;
    if k > p + 1 {
      PersistenceIsLast(env, p, k - 1);
    }
  }

  lemma FirstConfiguration(env: Env)
    requires env.Valid()
    ensures At(env, 0) == Configuration(RetrieveMemory, INITIAL)
  {
  }

  lemma StepsWithin(env: Env, k: nat)
    requires env.Valid()
    ensures At(env, k).state.counters.steps <= env.config.maxSteps
  {
    hide At, Env.Valid, Shaped;
    AlwaysSound(env, k);
  }

  /** Every run persists exactly once, after at most `maxSteps + 1` other nodes, and is then
      over: the recursion limit `3 * maxSteps + 16` is never met. */
  lemma RunsEnd(env: Env) returns (p: nat)
    requires env.Valid()
    ensures p <= env.config.maxSteps + 1 && p + 1 < 3 * env.config.maxSteps + 16
    ensures At(env, p).node == PersistMemory
    ensures forall k: nat | At(env, k).node == PersistMemory :: k == p
    ensures forall k: nat | k < p :: !Ending(At(env, k).node) && At(env, k).state.counters.steps == k
    ensures forall k: nat | p < k :: At(env, k) == Configuration(End, Persist(env, At(env, p).state))
  {
    hide At, Step, Sound, Env.Valid;
    FirstConfiguration(env);
    p := 0;
    while At(env, p).node != PersistMemory
      invariant p <= env.config.maxSteps + 1
      invariant forall k: nat | k < p :: !Ending(At(env, k).node)
      invariant !Ending(At(env, p).node) || At(env, p).node == PersistMemory
      decreases env.config.maxSteps + 1 - p
    {
      NodesAreSteps(env, p);
      StepsWithin(env, p);
      AlwaysSound(env, p);
      NextOf(env, p);
      StepOrEnd(env, At(env, p));
      p := p + 1;
    }
    forall k: nat | k < p ensures At(env, k).state.counters.steps == k {
      NodesAreSteps(env, k);
    }
    forall k: nat | p < k ensures At(env, k) == Configuration(End, Persist(env, At(env, p).state)) {
      PersistenceIsLast(env, p, k);
    }
  }

  lemma NextOf(env: Env, k: nat)
    requires env.Valid()
    ensures At(env, k + 1) == Step(env, At(env, k))
  {
    hide RunNode, Env.Valid;
  }

  /** The state a run ends in. */
  ghost function Final(env: Env): State
    requires env.Valid()
  {
    At(env, env.config.maxSteps + 2).state
  }

  /** The state persistence was given. */
  lemma FinalIsPersisted(env: Env) returns (p: nat)
    requires env.Valid()
    ensures At(env, p).node == PersistMemory && p <= env.config.maxSteps + 1
    ensures forall k: nat | At(env, k).node == PersistMemory :: k == p
    ensures Final(env) == Persist(env, At(env, p).state)
  {
    hide RunNode, Step, Persist;
    p := RunsEnd(env);
  }

  lemma FinalKeeps(env: Env, s: State)
    ensures var t := Persist(env, s);
            && t.plan == s.plan && t.epoch == s.epoch && t.memory.executions == s.memory.executions
            && t.memory.evidence == s.memory.evidence && t.counters == s.counters
            && (t.reason == Some(Completion) ==>
                env.writeOk && s.reason == Some(Completion) && t.response == s.response)
  {
  }

  /** After a terminal update by any node but retrieval, nothing is planned or called. */
  lemma NothingAfterTermination(env: Env, j: nat, k: nat)
    requires env.Valid()
    ensures var before, after, later := At(env, j), At(env, j + 1).state, At(env, k).state;
            && !Ending(before.node) && before.node != RetrieveMemory && after.route == ToPersist && j < k ==>
              later.trace == after.trace && later.counters == after.counters
  {
    hide At, RunNode, Env.Valid, Persist;
    NextOf(env, j);
    if At(env, j + 1).node == PersistMemory && k > j + 1 {
      PersistenceIsLast(env, j + 1, k);
      FinalKeeps(env, At(env, j + 1).state);
      PersistRests(env, At(env, j + 1).state);
    }
  }

  /** A run reports MEMORY_FAILURE exactly when the episode could not be written. A failed
      retrieval makes a terminal update too, but its edge leads on to the planner, and some
      later node always replaces the reason. */
  lemma MemoryFailureMeansUnwritten(env: Env)
    requires env.Valid()
    ensures Final(env).reason.Some?
    ensures Final(env).reason == Some(MemoryFailure) <==> !env.writeOk
  {
    hide At, Final, Env.Valid, PlanValid;
    var p := FinalIsPersisted(env);
    AlwaysSound(env, p);
  }
}
