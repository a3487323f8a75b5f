/** A planner that never runs out of fresh plans, and with it the runs that end
    UNSUPPORTED_COMPLETION_CLAIM: for every sequence of replies that allows it there is one. */
module DeniedRuns {
  import opened Options
  import opened Json
  import opened Keys
  import opened Plans
  import opened Graphs
  import opened Memory
  import opened References
  import opened Review
  import opened Notices
  import opened Scheduler
  import opened Selection
  import opened Graph
  import opened Answers
  import opened Runs
  import opened Effects
  import opened Accounting
  import opened AtMostOnce
  import opened Epochs
  import opened Freshness
  import opened Justified
  import opened Outcomes
  import opened Denials
  import opened Traces
  import opened Replies
  import SmoothRuns
  import Smooth
  import Ledger

  // ---------------------------------------------------------------------
  // The plans

  const TOOL := "lookup"

  /** The planner plans this often at most: once, and for each replan. */
  const MAX_PLANS := 21

  function Mark(first: char, n: nat): char
    requires n < 26 && (first == 'a' || (first == '0' && n < 10))
  {
    (first as int + n) as char
  }

  /** The name of task `k` of plan `j`: a letter and two digits. */
  function Name(j: nat, k: nat): string
    requires j < MAX_PLANS && k < MAX_TASKS
  {
    [Mark('a', j), Mark('0', k / 10), Mark('0', k % 10)]
  }

  lemma NamesDiffer(j: nat, k: nat, l: nat, m: nat)
    requires j < MAX_PLANS && k < MAX_TASKS && l < MAX_PLANS && m < MAX_TASKS && Name(j, k) == Name(l, m)
    ensures j == l && k == m
  {
    var a, b := Name(j, k), Name(l, m);
    assert a[0] == b[0] && a[1] == b[1] && a[2] == b[2];
    assert k == 10 * (k / 10) + k % 10 && m == 10 * (m / 10) + m % 10;
  }

  function Arguments(id: string): Fields {
    [Field("task", Str(id))]
  }

  function TaskOf(j: nat, k: nat): PlanTask
    requires j < MAX_PLANS && k < MAX_TASKS
  {
    PlanTask(Name(j, k), "look", [], [TOOL], Some(PlannedCall(TOOL, Arguments(Name(j, k)))), 0, Pending, 0, None)
  }

  /** Plan `j`: as many tasks as a plan may have, none of which waits for another. */
  function PlanOf(j: nat): (p: TaskPlan)
    requires j < MAX_PLANS
    ensures |p.tasks| == MAX_TASKS && forall k | 0 <= k < MAX_TASKS :: p.tasks[k] == TaskOf(j, k)
  {
    TaskPlan("plan", "goal", seq(MAX_TASKS, k requires 0 <= k < MAX_TASKS => TaskOf(j, k)))
  }

  lemma PlanOfIsValid(j: nat)
    requires j < MAX_PLANS
    ensures Constructible(PlanOf(j)) && Fresh(PlanOf(j)) && Verdict(PlanOf(j).tasks) == None
  {
    hide Name, Arguments, ValidTask, Verdict, ConstructibleTask;
    var tasks := PlanOf(j).tasks;
    forall a, b | 0 <= a < b < MAX_TASKS ensures tasks[a].taskId != tasks[b].taskId {
      if tasks[a].taskId == tasks[b].taskId {
        NamesDiffer(j, a, j, b);
      }
    }
    forall k | 0 <= k < MAX_TASKS ensures ValidTask(tasks[k]) && ConstructibleTask(tasks[k]) {
      TaskIsValid(j, k);
    }
    IndependentIsSound(tasks);
  }

  lemma TaskIsValid(j: nat, k: nat)
    requires j < MAX_PLANS && k < MAX_TASKS
    ensures ValidTask(TaskOf(j, k)) && ConstructibleTask(TaskOf(j, k))
  {
    ArgumentsAreJson(Name(j, k));
  }

  lemma IndependentIsSound(tasks: seq<PlanTask>)
    requires DistinctIds(tasks) && forall k | 0 <= k < |tasks| :: tasks[k].dependencies == []
    ensures Verdict(tasks) == None
  {
    var g := Dependencies(tasks);
    forall a | a in g ensures g[a] == [] {
      var i :| 0 <= i < |tasks| && tasks[i].taskId == a;
      assert g[tasks[i].taskId] == tasks[i].dependencies;
    }
    assert Ranking(g, map a | a in g :: 0);
  }

  lemma PlansDiffer(i: nat, j: nat)
    requires i < MAX_PLANS && j < MAX_PLANS && PlanFingerprint(PlanOf(i)) == PlanFingerprint(PlanOf(j))
    ensures i == j
  {
    hide PlanFingerprint, ValidPlan, Name, Verdict;
    PlanOfIsValid(i);
    PlanOfIsValid(j);
    PlanFingerprintFaithful(PlanOf(i), PlanOf(j));
    assert SameWork(PlanOf(i).tasks[0], PlanOf(j).tasks[0]);
    NamesDiffer(i, 0, j, 0);
  }

  lemma ArgumentsAreJson(id: string)
    ensures WellFormed(Obj(Arguments(id)))
  {
    assert WellFormed(Arguments(id)[0].value);
  }

  function KeyOf(id: string): string {
    CanonicalCall(TOOL, Obj(Arguments(id)))
  }

  lemma KeysDiffer(a: string, b: string)
    requires KeyOf(a) == KeyOf(b)
    ensures a == b
  {
    hide CanonicalCall;
    CanonicalCallFaithful(TOOL, Obj(Arguments(a)), TOOL, Obj(Arguments(b)));
    assert Same(Obj(Arguments(a)), Obj(Arguments(b)));
    assert SameIn(Arguments(a)[0], Arguments(b));
  }

  lemma ArgumentsResolve(id: string, evidence: seq<ToolEvidence>)
    ensures Resolve(Obj(Arguments(id)), evidence) == Some(Obj(Arguments(id)))
  {
    var fs := Arguments(id);
    assert !IsReference(fs) by {
      assert fs[0].key[0] == 't';
    }
    assert Resolve(Str(id), evidence) == Some(Str(id));
    assert ResolveFields(fs[1..], evidence) == Some([]);
    assert ResolveFields(fs, evidence) == Some([Field("task", Str(id))] + []) by {
      assert fs[0].value == Str(id) && fs != [];
    }
    assert [Field("task", Str(id))] + [] == fs;
  }

  // ---------------------------------------------------------------------
  // The surroundings

  /** Default wiring with a fresh plan for every replan. */
  ghost predicate Endless(env: Env) {
    && Wired(env) && DefaultText(env)
    && !env.usesModel && TOOL in env.toolNames && env.writeOk && env.retrieved.Some?
    && forall c: nat | c < MAX_PLANS :: env.planner(c) == Planned(PlanOf(c))
  }

  function EnvOf(config: Config, tools: nat -> ToolReply): Env {
    Env(config, false, (c: nat) => if c < MAX_PLANS then Planned(PlanOf(c)) else PlanningFailed(false), {TOOL}, tools,
        EvidenceBased, (m: WorkingMemory) => BuildFinalResponse(m.evidence), Some([]), true)
  }

  /** Every plan of the planner could be constructed. */
  ghost predicate Constructed(env: Env) {
    forall i: nat | env.planner(i).Planned? :: Constructible(env.planner(i).plan)
  }

  lemma EnvIsEndless(config: Config, tools: nat -> ToolReply)
    requires config.Valid()
    ensures Endless(EnvOf(config, tools)) && Constructed(EnvOf(config, tools))
  {
    hide ValidPlan, Fresh, Verdict, Config.Valid, PlanOf, BuildFinalResponse, ConstructibleTask;
    forall i: nat | i < MAX_PLANS ensures Constructible(PlanOf(i)) && Fresh(PlanOf(i)) {
      PlanOfIsValid(i);
    }
  }

  // ---------------------------------------------------------------------
  // What such a run has used up

  /** The plan is the latest; no plan, task or call to come has been seen. */
  ghost predicate Familiar(s: State) {
    var c := s.counters;
    && c.plannerCalls == 1 + c.replans && c.replans < MAX_PLANS && s.plan.Some?
    && SameTasks(PlanOf(c.replans).tasks, s.plan.value.tasks)
    && (forall key | key in s.planFingerprints :: FromPlans(key, c.plannerCalls))
    && (forall i: nat | i < |s.memory.executions| :: Named(s, i))
    && (forall i: nat | i < |s.trace| :: Keyed(s, i))
  }

  /** The fingerprint of one of the first `j` plans. */
  ghost predicate FromPlans(key: string, j: nat) {
    exists i: nat :: i < j && i < MAX_PLANS && key == PlanFingerprint(PlanOf(i))
  }

  /** Record `i` of the history is of a task of a plan so far; before the epoch, of an earlier one. */
  ghost predicate Named(s: State, i: nat)
    requires i < |s.memory.executions|
  {
    NamedBefore(s.memory.executions[i].taskId, s.counters.plannerCalls - if i < s.epoch then 1 else 0)
  }

  /** The name of a task of one of the first `j` plans. */
  ghost predicate NamedBefore(id: string, j: int) {
    exists l: nat, k: nat :: l < MAX_PLANS && k < MAX_TASKS && id == Name(l, k) && l < j
  }

  /** Call `i` was made for a task executed. */
  ghost predicate Keyed(s: State, i: nat)
    requires i < |s.trace|
  {
    exists x :: x in s.memory.executions && s.trace[i].key == KeyOf(x.taskId)
  }

  /** Nothing was planned or executed. */
  ghost predicate Waits(s: State, t: State) {
    && Unmoved(s, t) && t.epoch == s.epoch && t.planFingerprints == s.planFingerprints
    && t.counters.plannerCalls == s.counters.plannerCalls && t.counters.replans == s.counters.replans
    && s.plan.Some? && t.plan.Some? && SameTasks(s.plan.value.tasks, t.plan.value.tasks)
  }

  lemma WaitingIsFamiliar(s: State, t: State)
    requires Familiar(s) && Waits(s, t)
    ensures Familiar(t)
  {
    hide PlanOf, PlanFingerprint, KeyOf, Name, SameTasks;
    Smooth.SameTasksTransitive(PlanOf(s.counters.replans).tasks, s.plan.value.tasks,
                               t.plan.value.tasks);
    forall i: nat | i < |t.memory.executions| ensures Named(t, i) {
      assert Named(s, i);
    }
    forall i: nat | i < |t.trace| ensures Keyed(t, i) {
      assert Keyed(s, i);
    }
  }

  // ---------------------------------------------------------------------
  // Planning

  lemma PlansOnce(env: Env, c: Counters)
    requires Endless(env) && c.plannerCalls < MAX_PLANS
    ensures Plan(env, c, 1) == PlanReady(PlanOf(c.plannerCalls), c.(plannerCalls := c.plannerCalls + 1))
  {
    hide Verdict, ValidPlan, PlanOf, Fresh, DefaultText, Env.FreshPlans, ConstructibleTask;
    PlanOfIsValid(c.plannerCalls);
  }

  lemma NewPlanIsAdopted(env: Env, s: State, c: Counters, j: nat)
    requires env.config.repeatedPlanLimit >= 1 && j < MAX_PLANS
    requires forall key | key in s.planFingerprints :: FromPlans(key, j)
    ensures AcceptPlan(env, s, PlanOf(j), c) ==
            s.(plan := Some(PlanOf(j)), memory := s.memory.(currentPlan := Some(PlanOf(j))), counters := c,
               planFingerprints := s.planFingerprints[PlanFingerprint(PlanOf(j)) := 1],
               current := None, route := ToScheduler, epoch := |s.memory.executions|)
  {
    hide PlanOf, PlanFingerprint;
    if PlanFingerprint(PlanOf(j)) in s.planFingerprints {
      assert FromPlans(PlanFingerprint(PlanOf(j)), j);
      var i: nat :| i < j && i < MAX_PLANS && PlanFingerprint(PlanOf(j)) == PlanFingerprint(PlanOf(i));
      PlansDiffer(i, j);
    }
  }

  /** The history is all of earlier plans. */
  lemma AdoptingIsFamiliar(s: State, t: State, j: nat)
    requires j < MAX_PLANS && j == t.counters.replans && j + 1 == t.counters.plannerCalls && t.plan == Some(PlanOf(j))
    requires Unmoved(s, t) && t.epoch == |s.memory.executions|
    requires t.planFingerprints == s.planFingerprints[PlanFingerprint(PlanOf(j)) := 1]
    requires forall key | key in s.planFingerprints :: FromPlans(key, j)
    requires forall i: nat | i < |s.memory.executions| :: NamedBefore(s.memory.executions[i].taskId, j)
    requires forall i: nat | i < |s.trace| :: Keyed(s, i)
    ensures Familiar(t)
  {
    hide PlanOf, PlanFingerprint, KeyOf, Name;
    forall key | key in t.planFingerprints ensures FromPlans(key, j + 1) {
      if key in s.planFingerprints {
        assert FromPlans(key, j);
      }
    }
    forall i: nat | i < |t.memory.executions| ensures Named(t, i) {
      assert t.memory.executions[i] == s.memory.executions[i];
    }
    forall i: nat | i < |t.trace| ensures Keyed(t, i) {
      assert Keyed(s, i);
    }
  }

  lemma ReplanIsFamiliar(env: Env, s: State, c: Counters)
    requires Endless(env) && Familiar(s) && c == Counted(s.counters) && PlanValid(s)
    requires c.replans < env.config.maxReplans
    ensures var t := InvokePlanner(env, s, c, true);
            && t.route == ToScheduler && Familiar(t)
            && t.memory.evidence == s.memory.evidence && t.memory.executions == s.memory.executions
  {
    hide PlanOf, PlanFingerprint, KeyOf, Name, Keyed, SameTasks, ValidPlan, Plan, AcceptPlan, Env.FreshPlans,
         DefaultText;
    var d, j := c.(replans := c.replans + 1), c.plannerCalls;
    PlansOnce(env, d);
    NewPlanIsAdopted(env, s, d.(plannerCalls := j + 1), j);
    forall i: nat | i < |s.memory.executions| ensures NamedBefore(s.memory.executions[i].taskId, j) {
      assert Named(s, i);
    }
    AdoptingIsFamiliar(s, AcceptPlan(env, s, PlanOf(j), d.(plannerCalls := j + 1)), j);
  }

  lemma FirstPlanIsFamiliar(env: Env)
    requires Endless(env)
    ensures At(env, 2).node == SchedulerNode && Familiar(At(env, 2).state) && At(env, 2).state.memory.evidence == []
  {
    hide At, Work, PlanOf, PlanFingerprint, KeyOf, Name, SameTasks, ValidPlan, Plan, AcceptPlan,
         Env.FreshPlans, DefaultText, PlanSound;
    SmoothRuns.StepsSuffice(env);
    SmoothRuns.PlannerNodeInRun(env);
    SmoothRuns.NextIsWork(env, 1);
    AlwaysSound(env, 1);
    var s := At(env, 1).state;
    var c := Counted(s.counters);
    WorkOf(env, Planner, s);
    PlansOnce(env, c);
    NewPlanIsAdopted(env, s, c.(plannerCalls := 1), 0);
    AdoptingIsFamiliar(s, AcceptPlan(env, s, PlanOf(0), c.(plannerCalls := 1)), 0);
  }

  // ---------------------------------------------------------------------
  // One round: schedule, execute, review, and replan after a setback

  /** The scheduler is reached, `m` replies after the start. */
  ghost predicate Round(env: Env, k: nat, m: nat)
    requires env.Valid()
  {
    At(env, k).node == SchedulerNode && Familiar(At(env, k).state) && |At(env, k).state.memory.evidence| == m
  }

  /** What has been spent by then. */
  lemma RoundAccounts(env: Env, k: nat, m: nat)
    requires Endless(env) && Round(env, k, m)
    ensures k == 2 + 3 * m + 2 * Setbacks(env.tools, m)
    ensures var s := At(env, k).state;
            s.counters.replans == s.counters.reflections == Setbacks(env.tools, m) && |s.trace| == m
  {
    hide At, PlanValid, PlanSound, Env.Valid, Env.FreshPlans, DefaultText, Familiar, MadeOf, Hopeless, Setbacks;
    AlwaysSound(env, k);
    AlwaysSpelled(env, k);
    NodesAreSteps(env, k);
    TalliedTrace(env, k);
  }

  lemma TalliedTrace(env: Env, k: nat)
    requires Endless(env) && !Ending(At(env, k).node) && At(env, k).node != ReviewerNode
    ensures |At(env, k).state.trace| == |At(env, k).state.memory.evidence|
  {
    hide At, Env.Valid, Env.FreshPlans, DefaultText, MadeOf, Hopeless, Setbacks;
    AlwaysSpelled(env, k);
  }

  lemma RoundIsScheduled(env: Env, k: nat, m: nat)
    requires Endless(env) && Round(env, k, m) && k < env.config.maxSteps
    ensures At(env, k + 1).node == ExecutorNode && Familiar(At(env, k + 1).state)
    ensures |At(env, k + 1).state.memory.evidence| == m
  {
    hide At, Work, Env.Valid, Env.FreshPlans, DefaultText, Familiar, Schedule, PlanSound, SameTasks;
    var s := At(env, k).state;
    NodesAreSteps(env, k);
    AlwaysSound(env, k);
    SchedulerAlwaysServes(env, k);
    SmoothRuns.NextIsWork(env, k);
    WorkOf(env, SchedulerNode, s);
    SchedulerShape(s, Counted(s.counters));
    ScheduleKeeps(s, Counted(s.counters));
    Ledger.SchedulerRecords(s, Counted(s.counters));
    PlanPresent(s);
    WaitingIsFamiliar(s, At(env, k + 1).state);
  }

  lemma PlanPresent(s: State)
    requires PlanSound(s)
    ensures s.plan.Some?
  {
  }

  /** The task about to run has not run in this run, under whatever plan. */
  lemma TaskIsNew(s: State, i: nat)
    requires Familiar(s) && InOrder(s) && UpToDate(s) && AtTask(s, i)
    requires Runnable(s.plan.value.tasks, s.plan.value.tasks[i])
    ensures var task := s.plan.value.tasks[i];
            && task.call == Some(PlannedCall(TOOL, Arguments(task.taskId)))
            && NamedBefore(task.taskId, s.counters.plannerCalls)
            && forall x | x in s.memory.executions :: x.taskId != task.taskId
  {
    hide Name, Reflected, Ordered, ValidTask, Documented, HasStatus, Keyed, PlanFingerprint;
    var tasks, j := s.plan.value.tasks, s.counters.replans;
    assert SameTask(PlanOf(j).tasks[i], tasks[i]);
    WaitingHasNotRun(tasks, Current(s), i);
    forall x | x in s.memory.executions ensures x.taskId != tasks[i].taskId {
      var n: nat :| n < |s.memory.executions| && s.memory.executions[n] == x;
      if n < s.epoch {
        assert Named(s, n);
        var l: nat, m: nat :| l < MAX_PLANS && m < MAX_TASKS && x.taskId == Name(l, m) && l < j;
        if x.taskId == tasks[i].taskId {
          NamesDiffer(l, m, j, i);
        }
      } else {
        assert Current(s)[n - s.epoch] == x;
      }
    }
  }

  lemma CallIsNew(env: Env, s: State, id: string)
    requires Familiar(s) && Once(env.config, s) && forall x | x in s.memory.executions :: x.taskId != id
    ensures Count(s.taskFingerprints, KeyOf(id)) == 0 && KeyOf(id) !in s.sideEffects
  {
    hide KeyOf, Occurrences, PlanOf, PlanFingerprint, Named, SameTasks;
    forall i: nat | i < |s.trace| ensures s.trace[i].key != KeyOf(id) {
      assert Keyed(s, i);
      var x :| x in s.memory.executions && s.trace[i].key == KeyOf(x.taskId);
      if KeyOf(x.taskId) == KeyOf(id) {
        KeysDiffer(x.taskId, id);
      }
    }
    NoOccurrence(s.trace, KeyOf(id));
  }

  lemma {:induction false} NoOccurrence(trace: seq<Invocation>, key: string)
    requires forall i: nat | i < |trace| :: trace[i].key != key
    ensures Occurrences(trace, key) == 0
  {
    if trace != [] {
      NoOccurrence(trace[..|trace| - 1], key);
    }
  }

  /** So nothing refuses its call. */
  lemma CallGoesThrough(env: Env, s: State, c: Counters, i: nat)
    requires s.plan.Some? && s.current.Some? && IndexOf(s.plan.value.tasks, s.current.value) == Some(i)
    requires var task := s.plan.value.tasks[i];
             && task.call == Some(PlannedCall(TOOL, Arguments(task.taskId))) && TOOL in env.toolNames
             && task.attempts < env.config.maxTaskAttempts && c.toolCalls < env.config.maxToolCalls
             && Count(s.taskFingerprints, KeyOf(task.taskId)) == 0 && env.config.repeatedTaskLimit >= 1
             && KeyOf(task.taskId) !in s.sideEffects
    ensures var t, id := ExecuteCurrent(env, s, c), s.plan.value.tasks[i].taskId;
            t.route == ToReviewer && t.trace == s.trace + [Invocation(TOOL, Obj(Arguments(id)), KeyOf(id))]
  {
    hide IndexOf, CanonicalCall, Resolve, EvidenceOf, ResultOf, Arguments, TOOL;
    ArgumentsResolve(s.plan.value.tasks[i].taskId, s.memory.evidence);
  }

  lemma ExecutingIsFamiliar(s: State, t: State, i: nat)
    requires Familiar(s) && i < |s.plan.value.tasks| && Executed(s, i, t)
    requires t.planFingerprints == s.planFingerprints && t.counters.plannerCalls == s.counters.plannerCalls
    requires t.counters.replans == s.counters.replans
    requires NamedBefore(s.plan.value.tasks[i].taskId, s.counters.plannerCalls)
    requires |t.trace| == |s.trace| + 1 && t.trace[..|s.trace|] == s.trace
    requires t.trace[|s.trace|].key == KeyOf(s.plan.value.tasks[i].taskId)
    requires s.epoch <= |s.memory.executions|
    ensures Familiar(t)
  {
    hide PlanOf, PlanFingerprint, KeyOf, SameTasks, NamedBefore;
    var last := |s.memory.executions|;
    ExecutedKeepsTasks(s, i, t);
    Smooth.SameTasksTransitive(PlanOf(s.counters.replans).tasks, s.plan.value.tasks,
                               t.plan.value.tasks);
    forall n: nat | n < |t.memory.executions| ensures Named(t, n) {
      if n < last {
        assert Named(s, n);
      }
    }
    forall n: nat | n < |t.trace| ensures Keyed(t, n) {
      if n < |s.trace| {
        assert Keyed(s, n);
        var x :| x in s.memory.executions && s.trace[n].key == KeyOf(x.taskId);
        assert t.trace[..|s.trace|][n] == t.trace[n] && x in t.memory.executions;
      } else {
        assert t.memory.executions[last] in t.memory.executions;
      }
    }
  }

  lemma RoundIsExecuted(env: Env, k: nat, m: nat)
    requires Endless(env) && At(env, k).node == ExecutorNode && Familiar(At(env, k).state)
    requires |At(env, k).state.memory.evidence| == m < env.config.maxToolCalls && k < env.config.maxSteps
    ensures At(env, k + 1).node == ReviewerNode && Familiar(At(env, k + 1).state)
    ensures var s := At(env, k + 1).state;
            |s.memory.evidence| == |s.trace| == m + 1 && s.memory.evidence[m].toolName == TOOL
  {
    hide At, Work, Env.Valid, Env.FreshPlans, DefaultText, Familiar, Supported, ExecuteCurrent, Once,
         Executed, IndexOf, KeyOf, Arguments, NamedBefore, Runnable, InOrder, UpToDate, PlanSound, Placed,
         Called, EvidenceOf;
    var s := At(env, k).state;
    var c := Counted(s.counters);
    AlwaysTopological(env, k);
    AlwaysSound(env, k);
    AlwaysOnce(env, k);
    TalliedTrace(env, k);
    SmoothRuns.NextIsWork(env, k);
    WorkOf(env, ExecutorNode, s);
    PlanOfInOrder(s);
    var i := PreparedPlace(s);
    var id := s.plan.value.tasks[i].taskId;
    TaskIsNew(s, i);
    CallIsNew(env, s, id);
    AttemptIsFirst(env, k, i);
    Limits(env);
    CallGoesThrough(env, s, c, i);
    ExecuteEffect(env, s, c, i);
    ExecutionCalls(env, s, c, i);
    Ledger.ExecutorRecords(env, s, c, i);
    var t := ExecuteCurrent(env, s, c);
    ExecutedParts(s, i, t);
    ExecutingIsFamiliar(s, t, i);
  }

  lemma Limits(env: Env)
    requires env.Valid()
    ensures env.config.repeatedTaskLimit >= 1 && env.config.repeatedPlanLimit >= 1
  {
  }

  lemma ExecutedParts(s: State, i: nat, t: State)
    requires s.plan.Some? && i < |s.plan.value.tasks|
    ensures Executed(s, i, t) ==> |t.memory.evidence| == |s.memory.evidence| + 1
    ensures t.route != ToReviewer ==> !Executed(s, i, t)
  {
  }

  /** The plan has more tasks than the streak of successes. */
  lemma NotYetCompleted(s: State)
    requires Familiar(s) && InOrder(s) && UpToDate(s) && |Current(s)| < MAX_TASKS
    ensures !AllCompleted(s.plan.value.tasks)
  {
    hide Ordered, Reflected, AllCompleted, PlanFingerprint, ValidTask, Documented, LinearExtension;
    if AllCompleted(s.plan.value.tasks) {
      CompletedPlanIsExtended(s.plan.value.tasks, Current(s));
      ExtensionIsWhole(s.plan.value.tasks, Current(s));
    }
  }

  lemma ExtensionIsWhole(tasks: seq<PlanTask>, h: History)
    requires DistinctIds(tasks) && LinearExtension(tasks, h)
    ensures |h| == |tasks|
  {
    assert |multiset(TaskIds(h))| == |multiset(IdList(tasks))|;
  }

  /** What the review of reply `m` does. */
  lemma ReplyIsReviewed(env: Env, s: State, c: Counters, i: nat, m: nat)
    requires env.reviewer == EvidenceBased && JustRan(s, i) && IndexOf(s.plan.value.tasks, s.current.value) == Some(i)
    requires |s.memory.evidence| == m + 1 && s.memory.evidence[m].toolName == TOOL
    requires MadeOf(s.memory.evidence[m], env.tools(m)) && c == Counted(s.counters)
    requires UsefulReply(env.tools(m)) ==> !AllCompleted(s.plan.value.tasks)
    ensures var t := ReviewCurrent(env, s, c);
            && Waits(s, t)
            && (UsefulReply(env.tools(m)) ==> t.route == ToScheduler)
            && (!UsefulReply(env.tools(m)) && !Hopeless(env.tools(m)) ==> t.route == ToReflection)
            && (SaysDenial(env.tools(m)) ==> t.route == ToPersist && t.reason == Some(UnsupportedCompletionClaim))
  {
    hide ReviewCurrent, JustRan, IndexOf, UsefulReply, Hopeless, SaysDenial, AllCompleted, MadeOf, Useful,
         HasUnsupportedClaim, Inconclusive, Forged, SameTasks;
    EvidencePresent(s, i);
    EvidenceVerdict(env, s, c, i);
    ReviewEffect(env, s, c);
    Ledger.ReviewRecords(env, s, c, i);
    MadeIsUseful(s.memory.evidence[m], env.tools(m));
    LookupIsRetried(s.memory.evidence[m]);
    SameTasksReflexive(s);
  }

  lemma RoundIsReviewed(env: Env, k: nat, m: nat)
    requires Endless(env) && At(env, k).node == ReviewerNode && Familiar(At(env, k).state)
    requires var s := At(env, k).state;
             |s.memory.evidence| == |s.trace| == m + 1 && s.memory.evidence[m].toolName == TOOL
    requires k < env.config.maxSteps && (UsefulReply(env.tools(m)) ==> Streak(env.tools, m) + 1 < MAX_TASKS)
    ensures UsefulReply(env.tools(m)) ==>
              At(env, k + 1).node == SchedulerNode && Familiar(At(env, k + 1).state)
    ensures !UsefulReply(env.tools(m)) && !Hopeless(env.tools(m)) ==>
              At(env, k + 1).node == ReflectionNode && Familiar(At(env, k + 1).state)
    ensures SaysDenial(env.tools(m)) ==>
              At(env, k + 1).node == PersistMemory && At(env, k + 1).state.reason == Some(UnsupportedCompletionClaim)
    ensures |At(env, k + 1).state.memory.evidence| == m + 1
  {
    hide At, Work, Env.Valid, Env.FreshPlans, DefaultText, Familiar, ReviewCurrent, JustRan, Backed, IndexOf,
         InOrder, UpToDate, PlanSound, Placed, UsefulReply, Hopeless, SaysDenial, AllCompleted, MadeOf,
         HasUnsupportedClaim, Setbacks, Streak;
    var s := At(env, k).state;
    var c := Counted(s.counters);
    AlwaysSound(env, k);
    AlwaysTopological(env, k);
    AlwaysSupported(env, k);
    AlwaysSpelled(env, k);
    SmoothRuns.NextIsWork(env, k);
    WorkOf(env, ReviewerNode, s);
    if UsefulReply(env.tools(m)) {
      NotYetCompleted(s);
    }
    var i := JustRanPlace(s);
    ReplyIsReviewed(env, s, c, i, m);
    WaitingIsFamiliar(s, ReviewCurrent(env, s, c));
  }

  /** Evidence of this tool: what the reviewer makes of it. */
  lemma LookupIsRetried(e: ToolEvidence)
    requires e.toolName == TOOL
    ensures Inconclusive(e) <==> !Useful(e) && (e.ok || e.retryable)
    ensures Forged(e) <==> !e.ok && !e.retryable && SaysUnsupported(e.failureType)
  {
    assert |TOOL| != |"create_support_ticket"|;
  }

  lemma SetbackIsReflected(env: Env, k: nat, m: nat)
    requires Endless(env) && At(env, k).node == ReflectionNode && Familiar(At(env, k).state)
    requires |At(env, k).state.memory.evidence| == m && k < env.config.maxSteps
    requires Setbacks(env.tools, m) <= env.config.maxReflections
    ensures At(env, k + 1).node == ReplanNode && Familiar(At(env, k + 1).state)
    ensures |At(env, k + 1).state.memory.evidence| == m
  {
    hide At, Work, Env.Valid, Env.FreshPlans, DefaultText, Familiar, PlanSound, Placed, MadeOf, Hopeless,
         Setbacks, Text;
    var s := At(env, k).state;
    AlwaysSound(env, k);
    AlwaysSpelled(env, k);
    SmoothRuns.NextIsWork(env, k);
    WorkOf(env, ReflectionNode, s);
    PlanPresent(s);
    SameTasksReflexive(s);
    WaitingIsFamiliar(s, At(env, k + 1).state);
  }

  lemma SetbackIsReplanned(env: Env, k: nat, m: nat)
    requires Endless(env) && At(env, k).node == ReplanNode && Familiar(At(env, k).state)
    requires |At(env, k).state.memory.evidence| == m && k < env.config.maxSteps
    requires Setbacks(env.tools, m) <= env.config.maxReplans
    ensures Round(env, k + 1, m)
  {
    hide At, Work, InvokePlanner, Env.Valid, Env.FreshPlans, DefaultText, Familiar, PlanSound, Placed, MadeOf,
         Hopeless, Setbacks, PlanValid, PlanOf;
    var s := At(env, k).state;
    AlwaysSound(env, k);
    AlwaysSpelled(env, k);
    SmoothRuns.NextIsWork(env, k);
    WorkOf(env, ReplanNode, s);
    ReplanIsFamiliar(env, s, Counted(s.counters));
  }

  lemma {:induction false} SetbacksGrow(tools: nat -> ToolReply, m: nat, n: nat)
    requires m <= n
    ensures Setbacks(tools, m) <= Setbacks(tools, n)
  {
    hide UsefulReply;
    if m < n {
      SetbacksGrow(tools, m, n - 1);
    }
  }

  /** From round to round, as long as the replies allow it. */
  lemma NextRound(env: Env, n: nat, k: nat, m: nat) returns (next: nat)
    requires Endless(env) && Deniable(env.config, env.tools, n) && m < n && Round(env, k, m)
    ensures Round(env, next, m + 1)
  {
    hide At, Env.Valid, Env.FreshPlans, DefaultText, Familiar, SaysDenial, Hopeless, Setbacks,
         UsefulReply, PlanOf;
    RoundAccounts(env, k, m);
    OneMoreReply(env.tools, m);
    SetbacksGrow(env.tools, m + 1, n);
    RoundIsScheduled(env, k, m);
    RoundIsExecuted(env, k + 1, m);
    RoundIsReviewed(env, k + 2, m);
    if UsefulReply(env.tools(m)) {
      next := k + 3;
    } else {
      SetbackIsReflected(env, k + 3, m + 1);
      SetbackIsReplanned(env, k + 4, m + 1);
      next := k + 5;
    }
  }

  lemma {:induction false} Rounds(env: Env, n: nat, m: nat) returns (k: nat)
    requires Endless(env) && Deniable(env.config, env.tools, n) && m <= n
    ensures Round(env, k, m)
  {
    hide At, Env.Valid, Env.FreshPlans, DefaultText, Familiar, Deniable, PlanOf;
    if m == 0 {
      FirstPlanIsFamiliar(env);
      k := 2;
    } else {
      k := Rounds(env, n, m - 1);
      k := NextRound(env, n, k, m - 1);
    }
  }

  lemma DenialIsNoSuccess(reply: ToolReply)
    ensures SaysDenial(reply) ==> !UsefulReply(reply)
  {
  }

  /** With such a planner, replies that allow a denial bring it about. */
  lemma DenialComes(env: Env, n: nat)
    requires Endless(env) && Deniable(env.config, env.tools, n)
    ensures Final(env).reason == Some(UnsupportedCompletionClaim)
  {
    hide At, Final, Env.Valid, Env.FreshPlans, DefaultText, Familiar, SaysDenial, Hopeless, Setbacks, PlanOf,
         UsefulReply;
    var k := Rounds(env, n, n);
    RoundAccounts(env, k, n);
    RoundIsScheduled(env, k, n);
    RoundIsExecuted(env, k + 1, n);
    DenialIsNoSuccess(env.tools(n));
    RoundIsReviewed(env, k + 2, n);
    var p := FinalIsPersisted(env);
    assert p == k + 3;
  }

  // ---------------------------------------------------------------------
  // The replies decide

  /** Some run of the default wiring, with this configuration and these replies, is denied. */
  ghost predicate CanBeDenied(config: Config, tools: nat -> ToolReply) {
    exists env: Env ::
      && env.config == config && env.tools == tools && Wired(env) && DefaultText(env) && Constructed(env)
      && Final(env).reason == Some(UnsupportedCompletionClaim)
  }

  /** Default-wired runs on these replies can end UNSUPPORTED_COMPLETION_CLAIM, for some planner,
      exactly when some reply denies, none before it is hopeless, no streak completes a plan, and
      the budgets last till then. */
  lemma RepliesDecide(config: Config, tools: nat -> ToolReply)
    requires config.Valid()
    ensures CanBeDenied(config, tools) <==> exists n: nat :: Deniable(config, tools, n)
  {
    hide Final, Config.Valid, Env.Valid, Env.FreshPlans, DefaultText, Deniable, PlanOf, Constructible;
    if CanBeDenied(config, tools) {
      var env: Env :| && env.config == config && env.tools == tools && Wired(env) && DefaultText(env)
        && Constructed(env)
                      && Final(env).reason == Some(UnsupportedCompletionClaim);
      var n := DenialNeedsReplies(env);
    }
    if exists n: nat :: Deniable(config, tools, n) {
      var n: nat :| Deniable(config, tools, n);
      EnvIsEndless(config, tools);
      DenialComes(EnvOf(config, tools), n);
    }
  }
}
