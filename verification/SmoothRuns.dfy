/** A smooth plan, run: one retrieval, one planning, and three nodes for each task. */
module SmoothRuns {
  import opened Options
  import opened Json
  import opened Keys
  import opened Plans
  import opened Memory
  import opened References
  import opened Review
  import opened Notices
  import opened Scheduler
  import opened Selection
  import opened Graph
  import opened Answers
  import opened Runs
  import opened Effects
  import opened Accounting
  import opened AtMostOnce
  import opened Freshness
  import opened Progress
  import opened Justified
  import opened Smooth
  import Claims

  /** The run has reached `k` tasks of the ideal course, with these statuses. */
  ghost predicate OnCourse(env: Env, plan: TaskPlan, s: State, k: nat, tasks: seq<PlanTask>) {
    var p := Ideal(env, plan, k);
    && s.plan == Some(plan.(tasks := tasks))
    && s.memory.evidence == p.evidence && s.memory.executions == p.executions && s.trace == p.calls
  }

  /** No completion text claims more than its memory shows. */
  ghost predicate Supportable(env: Env) {
    forall m :: !HasUnsupportedClaim(env.builder(m), m.evidence)
  }

  lemma DefaultTextIsSupportable(env: Env)
    requires DefaultText(env)
    ensures Supportable(env)
  {
    hide HasUnsupportedClaim, BuildFinalResponse;
    forall m: WorkingMemory ensures !HasUnsupportedClaim(env.builder(m), m.evidence) {
      Claims.BuiltResponseIsSupported(m.evidence);
    }
  }

  /** The planner fails `retries` times in ways worth another attempt, then plans, within its
      attempts and the model-call budget. */
  ghost predicate ObtainsAfter(env: Env, plan: TaskPlan, retries: nat) {
    && retries < env.config.plannerAttempts && (env.usesModel ==> retries < env.config.maxModelCalls)
    && env.planner(retries) == Planned(plan)
    && forall i: nat | i < retries :: !env.planner(i).Planned? && env.planner(i).retryable
  }

  ghost predicate Obtains(env: Env, plan: TaskPlan) {
    exists retries: nat :: ObtainsAfter(env, plan, retries)
  }

  lemma {:induction false} PlanComes(env: Env, plan: TaskPlan, retries: nat, c: Counters, attempt: nat)
    requires env.Valid() && ObtainsAfter(env, plan, retries) && Verdict(plan.tasks) == None
    requires 1 <= attempt <= retries + 1 && c.plannerCalls == attempt - 1
    requires env.usesModel ==> c.modelCalls == attempt - 1
    ensures Plan(env, c, attempt).PlanReady? && Plan(env, c, attempt).plan == plan
    decreases retries + 1 - attempt
  {
    hide Verdict, Text, ValidPlan;
    if attempt <= retries {
      assert !env.planner(attempt - 1).Planned? && env.planner(attempt - 1).retryable;
      var called := c.(modelCalls := c.modelCalls + if env.usesModel then 1 else 0, plannerCalls := c.plannerCalls + 1);
      PlanComes(env, plan, retries, called.(failures := called.failures + 1, retries := called.retries + 1),
                attempt + 1);
    }
  }

  /** The first plan is good, and nothing will get in its way but the step budget. */
  ghost predicate Untroubled(env: Env, plan: TaskPlan) {
    && Wired(env) && Supportable(env)
    && Obtains(env, plan) && Verdict(plan.tasks) == None
    && Smooth.Smooth(env, plan)
  }

  lemma PlanOfPlanner(env: Env, plan: TaskPlan)
    requires env.Valid() && Obtains(env, plan)
    ensures ValidPlan(plan) && (env.FreshPlans() ==> Fresh(plan))
  {
    hide ValidPlan, Fresh;
    var retries: nat :| ObtainsAfter(env, plan, retries);
    assert env.planner(retries).Planned?;
  }

  lemma PlanOfUntroubled(env: Env, plan: TaskPlan)
    requires Untroubled(env, plan)
    ensures ValidPlan(plan) && Fresh(plan)
  {
    hide ValidPlan, Fresh, Smooth.Smooth, Supportable, Obtains, Env.Valid, Env.FreshPlans;
    PlanOfPlanner(env, plan);
  }

  // ---------------------------------------------------------------------
  // The nodes

  lemma FirstPlanning(env: Env, plan: TaskPlan, s: State, c: Counters)
    requires env.Valid() && Obtains(env, plan) && Verdict(plan.tasks) == None && PlanValid(s)
    requires c.plannerCalls == 0 && c.modelCalls == 0 && s.planFingerprints == map[]
    requires s.memory.evidence == [] && s.memory.executions == [] && s.trace == []
    ensures var t := InvokePlanner(env, s, c, false);
            t.route == ToScheduler && OnCourse(env, plan, t, 0, plan.tasks)
  {
    hide ValidPlan, Verdict, PlanFingerprint, Advance, Fits, Plan, Text, ObtainsAfter;
    var retries: nat :| ObtainsAfter(env, plan, retries);
    PlanComes(env, plan, retries, c, 1);
  }

  lemma SchedulerOnCourse(env: Env, plan: TaskPlan, s: State, c: Counters, k: nat)
    requires Untroubled(env, plan) && k < |plan.tasks| && PlanValid(s)
    requires OnCourse(env, plan, s, k, Ideal(env, plan, k).tasks)
    ensures var t, p := Schedule(s, c), Ideal(env, plan, k);
            && t.route == ToExecutor && OnCourse(env, plan, t, k, Readying(p.tasks))
            && Choice(p.tasks).Some? && t.current == Some(p.tasks[Choice(p.tasks).value].taskId)
  {
    hide Env.Valid, Env.FreshPlans, Schedule, Dispatch, ValidTask, Ideal, Verdict, Choice, Readying,
         Smooth.Smooth, Supportable, SameTasks, Fits;
    PlanOfUntroubled(env, plan);
    IdealProgress(env, plan, k);
    var p := Ideal(env, plan, k);
    ChoiceIsRunnable(p.tasks);
    LivelyPlanIsServed(p.tasks);
    ScheduleEffect(s, c);
    DispatchEffect(s, c, SettledPlan(s.plan.value), Choice(Blocking(s.plan.value.tasks)));
  }

  lemma ReplyEvidence(task: PlanTask, tool: string, reply: ToolReply)
    requires UsefulReply(reply)
    ensures forall data | Gave(reply, data) ::
              EvidenceOf(task, tool, ResultOf(reply)) == ToolEvidence(task.taskId, tool, true, data, None, false, false)
  {
    hide EvidenceOf, ResultOf, Lookup;
    EvidenceIsMade(task, tool, reply);
  }

  lemma ExecuteFits(env: Env, p: Course, i: nat, task: PlanTask, c: Counters, repeated: map<string, nat>,
                    sideEffects: set<string>)
    requires i < |p.tasks| && Fits(env, p, i) && SameTask(p.tasks[i], task) && task.attempts == p.tasks[i].attempts
    requires c.toolCalls == |p.calls|
    requires Count(repeated, CallOf(p, i).key) == Occurrences(p.calls, CallOf(p, i).key)
    requires CallOf(p, i).key in sideEffects <==> Made(env.config, p.calls, CallOf(p, i).key)
    ensures var o, q := Execute(env, task, p.evidence, c, repeated, sideEffects), Advance(env, p, i);
            && o.Finished? && o.invoked == Some(CallOf(p, i))
            && p.evidence + [o.evidence] == q.evidence && p.executions + [o.execution] == q.executions
            && o.task == task.(status := Completed, attempts := q.tasks[i].attempts, failureReason := None)
  {
    hide EvidenceOf, ResultOf, Resolve, CanonicalCall, Count, Occurrences, Made, UsefulReply, Readying;
    ReplyEvidence(task.(attempts := task.attempts + 1, status := Running), task.call.value.name,
      env.tools(c.toolCalls));
  }

  lemma ReadyIsSame(tasks: seq<PlanTask>, i: nat)
    requires i < |tasks|
    ensures SameTask(tasks[i], Readying(tasks)[i]) && Readying(tasks)[i].attempts == tasks[i].attempts
    ensures Readying(tasks)[i].taskId == tasks[i].taskId
  {
    hide Runnable;
  }

  lemma ExecutionAdvances(env: Env, p: Course, s: State, c: Counters, i: nat)
    requires i < |p.tasks| && Fits(env, p, i) && c.toolCalls == |p.calls|
    requires s.plan.Some? && s.plan.value.tasks == Readying(p.tasks) && s.current.Some?
    requires s.memory.evidence == p.evidence && s.memory.executions == p.executions && s.trace == p.calls
    requires IndexOf(s.plan.value.tasks, s.current.value) == Some(i)
    requires s.plan.value.tasks[i].attempts < env.config.maxTaskAttempts
    requires Count(s.taskFingerprints, CallOf(p, i).key) == Occurrences(p.calls, CallOf(p, i).key)
    requires CallOf(p, i).key in s.sideEffects <==> Made(env.config, p.calls, CallOf(p, i).key)
    ensures var t, q := ExecuteCurrent(env, s, c), Advance(env, p, i);
            && t.route == ToReviewer && t.plan == Some(s.plan.value.(tasks := q.tasks))
            && t.memory.evidence == q.evidence && t.memory.executions == q.executions && t.trace == q.calls
  {
    hide Execute, Fits, Occurrences, Made, Count, CallOf, IndexOf, Readying;
    ReadyIsSame(p.tasks, i);
    var task := s.plan.value.tasks[i];
    ExecuteFits(env, p, i, task, c, s.taskFingerprints, s.sideEffects);
    AdvancedTasks(env, p, i, Execute(env, task, p.evidence, c, s.taskFingerprints, s.sideEffects).task);
  }

  lemma AdvancedTasks(env: Env, p: Course, i: nat, done: PlanTask)
    requires i < |p.tasks| && Fits(env, p, i)
    requires done == Readying(p.tasks)[i].(status := Completed, attempts := Advance(env, p, i).tasks[i].attempts,
             failureReason := None)
    ensures Readying(p.tasks)[i := done] == Advance(env, p, i).tasks
    ensures Advance(env, p, i).calls == p.calls + [CallOf(p, i)]
  {
    hide Fits, CallOf, Runnable;
  }

  lemma ExecutorOnCourse(env: Env, plan: TaskPlan, s: State, c: Counters, k: nat)
    requires Untroubled(env, plan) && k < |plan.tasks| && PlanValid(s) && Once(env.config, s)
    requires c.toolCalls == |s.trace|
    requires OnCourse(env, plan, s, k, Readying(Ideal(env, plan, k).tasks))
    requires Choice(Ideal(env, plan, k).tasks).Some?
    requires AtTask(s, Choice(Ideal(env, plan, k).tasks).value)
    requires s.plan.value.tasks[Choice(Ideal(env, plan, k).tasks).value].attempts < env.config.maxTaskAttempts
    ensures var t, q := ExecuteCurrent(env, s, c), Ideal(env, plan, k + 1);
            t.route == ToReviewer && OnCourse(env, plan, t, k + 1, q.tasks)
  {
    hide Env.Valid, Env.FreshPlans, ExecuteCurrent, ValidTask, Verdict, Choice, Smooth.Smooth, Supportable,
         SameTasks, Fits, Occurrences, Runnable, CallOf, IndexOf, AllCompleted, Lively, Once, Made, Count,
         Advance, DistinctIds;
    PlanOfUntroubled(env, plan);
    IdealProgress(env, plan, k);
    var p := Ideal(env, plan, k);
    var i := Choice(p.tasks).value;
    ChoiceIsRunnable(p.tasks);
    PlaceOf(s, i);
    FittingCall(env, p, i);
    StoredIsMade(env, s, p.calls, CallOf(p, i).key);
    ExecutionAdvances(env, p, s, c, i);
  }

  lemma FittingCall(env: Env, p: Course, i: nat)
    requires i < |p.tasks| && Fits(env, p, i)
    ensures p.tasks[i].call.Some? && Resolve(Obj(p.tasks[i].call.value.arguments), p.evidence).Some?
  {
  }

  lemma PlaceOf(s: State, i: nat)
    requires PlanValid(s) && AtTask(s, i)
    ensures IndexOf(s.plan.value.tasks, s.current.value) == Some(i)
  {
  }

  lemma StoredIsMade(env: Env, s: State, calls: seq<Invocation>, key: string)
    requires Once(env.config, s) && s.trace == calls
    ensures Count(s.taskFingerprints, key) == Occurrences(calls, key)
    ensures key in s.sideEffects <==> Made(env.config, calls, key)
  {
    hide Occurrences;
  }

  /** The last evidence of the ideal course is useful. */
  lemma LastIsUseful(env: Env, plan: TaskPlan, k: nat)
    requires ValidPlan(plan) && Fresh(plan) && Verdict(plan.tasks) == None && Smooth.Smooth(env, plan)
    requires k < |plan.tasks|
    ensures var e := Ideal(env, plan, k + 1).evidence;
            e != [] && Useful(e[|e| - 1])
  {
    hide ValidTask, Verdict, Choice, Smooth.Smooth, CallOf, Occurrences, Made, Resolve, Readying, Fresh;
    IdealProgress(env, plan, k);
  }

  lemma ReviewerOnCourse(env: Env, plan: TaskPlan, s: State, c: Counters, k: nat)
    requires Untroubled(env, plan) && k < |plan.tasks| && PlanValid(s) && Supported(env, ReviewerNode, s)
    requires OnCourse(env, plan, s, k + 1, Ideal(env, plan, k + 1).tasks)
    ensures var t, q := ReviewCurrent(env, s, c), Ideal(env, plan, k + 1);
            && OnCourse(env, plan, t, k + 1, q.tasks)
            && (if k + 1 < |plan.tasks| then t.route == ToScheduler
                else t.route == ToPersist && t.reason == Some(Completion))
  {
    hide Env.Valid, Env.FreshPlans, ReviewCurrent, ValidTask, Verdict, Smooth.Smooth, HasUnsupportedClaim,
         AllCompleted, JustRan, Ideal, DistinctIds, IndexOf, Useful, SameTasks, Lively;
    PlanOfUntroubled(env, plan);
    var q := Ideal(env, plan, k + 1);
    var i := JustRanPlace(s);
    EvidencePresent(s, i);
    ReviewEffect(env, s, c);
    EvidenceVerdict(env, s, c, i);
    LastIsUseful(env, plan, k);
    IdealProgress(env, plan, k + 1);
    assert |q.tasks| == |plan.tasks| by { SameLength(plan.tasks, q.tasks); }
    assert AllCompleted(q.tasks) <==> k + 1 == |plan.tasks|;
    var m := s.memory.(currentPlan := s.plan);
    assert !HasUnsupportedClaim(env.builder(m), m.evidence);
  }

  lemma SameLength(a: seq<PlanTask>, b: seq<PlanTask>)
    requires SameTasks(a, b)
    ensures |a| == |b|
  {
  }

  // ---------------------------------------------------------------------
  // The run

  /** While steps remain, the next configuration is the node's work. */
  lemma NextIsWork(env: Env, j: nat)
    requires env.Valid() && !Ending(At(env, j).node) && j < env.config.maxSteps
    ensures var k := At(env, j);
            At(env, j + 1) == Configuration(Next(k.node, Work(env, k.node, k.state, Counted(k.state.counters)).route),
                                            Work(env, k.node, k.state, Counted(k.state.counters)))
  {
    hide At, Work, Env.Valid, Next;
    NodesAreSteps(env, j);
    NextOf(env, j);
  }

  lemma PlannerNodeInRun(env: Env)
    requires env.Valid()
    ensures At(env, 1).node == Planner
    ensures var s, c := At(env, 1).state, Counted(At(env, 1).state.counters);
            && c.plannerCalls == 0 && c.modelCalls == 0 && s.planFingerprints == map[]
            && s.memory.evidence == [] && s.memory.executions == [] && s.trace == []
  {
    hide Work, RunNode, Env.Valid;
    assert 4 <= env.config.maxSteps by { StepsSuffice(env); }
    NextIsWork(env, 0);
    WorkOf(env, RetrieveMemory, INITIAL);
  }

  lemma StepsSuffice(env: Env)
    requires env.Valid()
    ensures 4 <= env.config.maxSteps
  {
  }

  lemma FirstScheduling(env: Env, plan: TaskPlan)
    requires Untroubled(env, plan)
    ensures At(env, 2).node == SchedulerNode && OnCourse(env, plan, At(env, 2).state, 0, plan.tasks)
  {
    hide At, Work, Env.Valid, Env.FreshPlans, Verdict, Supportable, Smooth.Smooth, OnCourse, PlanValid, Obtains;
    StepsSuffice(env);
    PlannerNodeInRun(env);
    NextIsWork(env, 1);
    WorkOf(env, Planner, At(env, 1).state);
    FirstPlanning(env, plan, At(env, 1).state, Counted(At(env, 1).state.counters));
  }

  /** The task chosen after `k` ideal ones is current. */
  ghost predicate Chosen(env: Env, plan: TaskPlan, s: State, k: nat) {
    var p := Ideal(env, plan, k);
    && Choice(p.tasks).Some? && Choice(p.tasks).value < |p.tasks|
    && s.current == Some(p.tasks[Choice(p.tasks).value].taskId)
  }

  lemma ServesInRun(env: Env, plan: TaskPlan, k: nat)
    requires Untroubled(env, plan) && k < |plan.tasks| && 2 + 3 * k < env.config.maxSteps
    requires At(env, 2 + 3 * k).node == SchedulerNode
    requires OnCourse(env, plan, At(env, 2 + 3 * k).state, k, Ideal(env, plan, k).tasks)
    ensures At(env, 3 + 3 * k).node == ExecutorNode
    ensures var s := At(env, 3 + 3 * k).state;
            OnCourse(env, plan, s, k, Readying(Ideal(env, plan, k).tasks)) && Chosen(env, plan, s, k)
  {
    hide At, Work, Env.Valid, Env.FreshPlans, Verdict, Supportable, Smooth.Smooth, OnCourse, PlanValid, Ideal, Choice;
    NextIsWork(env, 2 + 3 * k);
    var s := At(env, 2 + 3 * k).state;
    WorkOf(env, SchedulerNode, s);
    SchedulerOnCourse(env, plan, s, Counted(s.counters), k);
    ChoiceIsRunnable(Ideal(env, plan, k).tasks);
  }

  lemma ChosenPlace(env: Env, plan: TaskPlan, s: State, k: nat)
    requires Chosen(env, plan, s, k) && OnCourse(env, plan, s, k, Readying(Ideal(env, plan, k).tasks))
    ensures AtTask(s, Choice(Ideal(env, plan, k).tasks).value)
  {
    hide Ideal, Choice, Readying;
    ReadyIsSame(Ideal(env, plan, k).tasks, Choice(Ideal(env, plan, k).tasks).value);
  }

  lemma ExecutesInRun(env: Env, plan: TaskPlan, k: nat)
    requires Untroubled(env, plan) && k < |plan.tasks| && 3 + 3 * k < env.config.maxSteps
    requires At(env, 3 + 3 * k).node == ExecutorNode
    requires var s := At(env, 3 + 3 * k).state;
             OnCourse(env, plan, s, k, Readying(Ideal(env, plan, k).tasks)) && Chosen(env, plan, s, k)
    ensures At(env, 4 + 3 * k).node == ReviewerNode
    ensures OnCourse(env, plan, At(env, 4 + 3 * k).state, k + 1, Ideal(env, plan, k + 1).tasks)
  {
    hide At, Work, Env.Valid, Env.FreshPlans, Verdict, Supportable, Smooth.Smooth, OnCourse, PlanValid, Ideal,
         Choice, ExecuteCurrent, Once;
    NextIsWork(env, 3 + 3 * k);
    var s := At(env, 3 + 3 * k).state;
    WorkOf(env, ExecutorNode, s);
    ChosenPlace(env, plan, s, k);
    var i := Choice(Ideal(env, plan, k).tasks).value;
    AttemptIsFirst(env, 3 + 3 * k, i);
    AlwaysOnce(env, 3 + 3 * k);
    CallsOf(env, 3 + 3 * k);
    ExecutorOnCourse(env, plan, s, Counted(s.counters), k);
  }

  lemma CallsOf(env: Env, j: nat)
    requires env.Valid()
    ensures At(env, j).state.counters.toolCalls == |At(env, j).state.trace|
  {
    hide At, Env.Valid, Shaped;
    AlwaysSound(env, j);
  }

  lemma ReviewsInRun(env: Env, plan: TaskPlan, k: nat)
    requires Untroubled(env, plan) && k < |plan.tasks| && 4 + 3 * k < env.config.maxSteps
    requires At(env, 4 + 3 * k).node == ReviewerNode
    requires OnCourse(env, plan, At(env, 4 + 3 * k).state, k + 1, Ideal(env, plan, k + 1).tasks)
    ensures var n := At(env, 5 + 3 * k);
            && n.node == (if k + 1 < |plan.tasks| then SchedulerNode else PersistMemory)
            && OnCourse(env, plan, n.state, k + 1, Ideal(env, plan, k + 1).tasks)
            && (k + 1 == |plan.tasks| ==> n.state.reason == Some(Completion))
  {
    hide At, Work, Env.Valid, Env.FreshPlans, Verdict, Supportable, Smooth.Smooth, OnCourse, PlanValid, Ideal,
         ReviewCurrent, Supported;
    NextIsWork(env, 4 + 3 * k);
    var s := At(env, 4 + 3 * k).state;
    WorkOf(env, ReviewerNode, s);
    AlwaysSupported(env, 4 + 3 * k);
    ReviewerOnCourse(env, plan, s, Counted(s.counters), k);
  }

  /** As long as its step budget lasts, the run is where the ideal course says. */
  lemma {:induction false} ReachesRound(env: Env, plan: TaskPlan, k: nat)
    requires Untroubled(env, plan) && k <= |plan.tasks| && 2 + 3 * k <= env.config.maxSteps
    ensures var n := At(env, 2 + 3 * k);
            && n.node == (if k < |plan.tasks| then SchedulerNode else PersistMemory)
            && OnCourse(env, plan, n.state, k, Ideal(env, plan, k).tasks)
            && (k == |plan.tasks| ==> n.state.reason == Some(Completion))
  {
    hide At, Env.Valid, Env.FreshPlans, Verdict, Supportable, Smooth.Smooth, OnCourse, Chosen, Untroubled, Ideal;
    HasTasks(env, plan);
    if k == 0 {
      FirstScheduling(env, plan);
      IdealStart(env, plan);
    } else {
      var j := k - 1;
      assert 2 + 3 * k == 5 + 3 * j;
      ReachesRound(env, plan, j);
      ServesInRun(env, plan, j);
      ExecutesInRun(env, plan, j);
      ReviewsInRun(env, plan, j);
    }
  }

  lemma HasTasks(env: Env, plan: TaskPlan)
    requires Untroubled(env, plan)
    ensures env.Valid() && plan.tasks != []
  {
    hide Env.FreshPlans, ValidTask, Supportable, Smooth.Smooth, Obtains;
    PlanOfPlanner(env, plan);
  }

  lemma IdealStart(env: Env, plan: TaskPlan)
    ensures Ideal(env, plan, 0).tasks == plan.tasks
  {
  }

  /** Where the run is inside a round. */
  lemma StillWorking(env: Env, plan: TaskPlan, j: nat)
    requires Untroubled(env, plan) && j <= env.config.maxSteps && j < 2 + 3 * |plan.tasks|
    ensures !Ending(At(env, j).node) && (j > 0 ==> At(env, j).node != RetrieveMemory)
  {
    hide At, Env.Valid, Env.FreshPlans, Verdict, Supportable, Smooth.Smooth, OnCourse, Chosen, Ideal;
    if j >= 2 {
      var k := (j - 2) / 3;
      ReachesRound(env, plan, k);
      if j > 2 + 3 * k {
        ServesInRun(env, plan, k);
        if j > 3 + 3 * k {
          ExecutesInRun(env, plan, k);
        }
      }
    } else {
      PlannerNodeInRun(env);
      FirstConfiguration(env);
    }
  }

  // ---------------------------------------------------------------------
  // The completion theorem

  lemma StepsAfter(env: Env, j: nat)
    requires env.Valid() && !Ending(At(env, j).node) && j < env.config.maxSteps
    ensures At(env, j + 1).state.counters.steps == j + 1
  {
    hide At, Env.Valid, Work, Accounting.Sound;
    NextIsWork(env, j);
    NodesAreSteps(env, j);
    AlwaysSound(env, j);
    WorkCountsOneStep(env, At(env, j).node, At(env, j).state);
  }

  /** A smooth plan of `n` tasks takes exactly `3n + 2` steps and `n` tool calls, the ones of the
      ideal course in its order, and completes. */
  lemma CompletionTime(env: Env, plan: TaskPlan)
    requires Untroubled(env, plan) && env.writeOk && 3 * |plan.tasks| + 2 <= env.config.maxSteps
    ensures var s, p := Final(env), Ideal(env, plan, |plan.tasks|);
            && s.reason == Some(Completion)
            && s.counters.steps == 3 * |plan.tasks| + 2
            && s.counters.toolCalls == |plan.tasks|
            && s.plan == Some(plan.(tasks := p.tasks)) && s.trace == p.calls
            && s.memory.evidence == p.evidence && s.memory.executions == p.executions
  {
    hide At, Final, Env.Valid, Env.FreshPlans, Verdict, Supportable, Smooth.Smooth, Ideal, ValidPlan, Fresh;
    var n := |plan.tasks|;
    ReachesRound(env, plan, n);
    PlanOfUntroubled(env, plan);
    IdealProgress(env, plan, n);
    var p := FinalIsPersisted(env);
    assert p == 2 + 3 * n;
    StillWorking(env, plan, 1 + 3 * n);
    StepsAfter(env, 1 + 3 * n);
    CallsOf(env, p);
    FinalKeeps(env, At(env, p).state);
  }

  lemma CompletedText(env: Env)
    requires Wired(env) && DefaultText(env) && Final(env).reason == Some(Completion)
    ensures Final(env).response == BuildFinalResponse(Final(env).memory.evidence)
  {
    hide At, Final, Env.Valid, Env.FreshPlans, BuildFinalResponse;
    var p := FinalIsPersisted(env);
    AlwaysSupported(env, p);
    FinalKeeps(env, At(env, p).state);
  }

  /** With the built-in completion text nothing need be known of it. */
  lemma DefaultCompletionTime(env: Env, plan: TaskPlan)
    requires Wired(env) && DefaultText(env) && Obtains(env, plan) && Verdict(plan.tasks) == None
    requires Smooth.Smooth(env, plan)
    requires env.writeOk && 3 * |plan.tasks| + 2 <= env.config.maxSteps
    ensures var s := Final(env);
            && s.reason == Some(Completion) && s.response == BuildFinalResponse(s.memory.evidence)
            && s.counters.steps == 3 * |plan.tasks| + 2 && s.counters.toolCalls == |plan.tasks|
  {
    hide Final, Verdict, Smooth.Smooth, Supportable, Obtains, DefaultText, BuildFinalResponse, Wired;
    DefaultTextIsSupportable(env);
    CompletionTime(env, plan);
    CompletedText(env);
  }

  /** With fewer steps than that, the run stops at its limit, having counted exactly it. */
  lemma TooFewSteps(env: Env, plan: TaskPlan)
    requires Untroubled(env, plan) && env.writeOk && env.config.maxSteps < 3 * |plan.tasks| + 2
    ensures Final(env).reason == Some(MaxStepsExceeded)
    ensures Final(env).counters.steps == env.config.maxSteps
  {
    hide At, Final, Env.Valid, Env.FreshPlans, Verdict, Supportable, Smooth.Smooth;
    var m := env.config.maxSteps;
    StepsSuffice(env);
    StillWorking(env, plan, m);
    NodesAreSteps(env, m);
    LimitReached(env, m);
    var p := FinalIsPersisted(env);
    assert p == m + 1;
    FinalKeeps(env, At(env, p).state);
  }

  lemma LimitReached(env: Env, j: nat)
    requires env.Valid() && !Ending(At(env, j).node) && At(env, j).node != RetrieveMemory
    requires At(env, j).state.counters.steps == env.config.maxSteps
    ensures At(env, j + 1) == Configuration(PersistMemory, OutOfSteps(At(env, j).state))
  {
    hide At, Env.Valid, Work;
    NextOf(env, j);
  }
}
