/** Every node of a run by its rules: what it records, what it counts, where it leads, and for which
    reason and with which sentence it ends the run. The executor's rules are in `Execution`. */
module Rules {
  import opened Options
  import opened Keys
  import opened Plans
  import opened Graphs
  import opened Memory
  import opened Review
  import opened Notices
  import opened Scheduler
  import opened Selection
  import opened Graph
  import opened Runs
  import opened Effects
  import opened Accounting
  import opened AtMostOnce
  import opened Justified
  import opened Execution
  import opened Planning
  import opened Verdicts
  import Ledger

  // ---------------------------------------------------------------------
  // Retrieval and planning

  /** Past episodes are remembered; when they cannot be had, that is noted. */
  ghost predicate Recalls(env: Env, s: State, c: Counters, t: State) {
    match env.retrieved
    case None => Refuses(s, c, t, MemoryFailure, "Episodic memory retrieval failed safely.")
    case Some(episodes) => t.memory == s.memory.(episodes := episodes) && t.counters == c && t.reason == s.reason
  }

  /** The plan is taken, unless plans of the same work were taken `taken` times and that is enough. */
  ghost predicate Takes(env: Env, s: State, c: Counters, plan: TaskPlan, taken: nat, t: State) {
    if taken >= env.config.repeatedPlanLimit then
      Refuses(s, c, t, RepeatedPlan, "The planner repeated the same effective plan too many times.")
    else
      && t.route == ToScheduler && t.plan == Some(plan) && t.memory == s.memory.(currentPlan := Some(plan))
      && t.counters == c && t.reason == s.reason && t.epoch == |s.memory.executions|
  }

  /** A replan is counted, if one is left. */
  ghost predicate Drafts(env: Env, s: State, c: Counters, replan: bool, taken: map<string, nat>, t: State) {
    if replan && c.replans >= env.config.maxReplans then
      Refuses(s, c, t, MaxReplansExceeded, "The bounded replanning budget was exhausted.")
    else ReliesOn(env, s, if replan then c.(replans := c.replans + 1) else c, taken, t)
  }

  /** As many failures that may pass are retried as the planner's attempts allow, and the next reply, or
      the model-call budget, decides. */
  ghost predicate ReliesOn(env: Env, s: State, c: Counters, taken: map<string, nat>, t: State) {
    exists n: nat, p ::
      && n < env.config.plannerAttempts && (forall j: nat | j < n :: Retries(env, c, j))
      && (Retries(env, c, n) ==> n + 1 == env.config.plannerAttempts) && Concludes(env, c, n, p)
      && Uses(env, s, p, taken, t)
  }

  /** What the node makes of the planner loop's outcome. */
  ghost predicate Uses(env: Env, s: State, p: Graph.Planning, taken: map<string, nat>, t: State) {
    match p
    case PlanStopped(reason, response, counters) => Refuses(s, counters, t, reason, response)
    case PlanReady(plan, counters) => Takes(env, s, counters, plan, Count(taken, PlanFingerprint(plan)), t)
  }

  lemma RetrievalByTheRules(env: Env, s: State, c: Counters)
    ensures Recalls(env, s, c, Retrieve(env, s, c))
  {
  }

  lemma TakingByTheRules(env: Env, s: State, plan: TaskPlan, c: Counters)
    ensures Takes(env, s, c, plan, Count(s.planFingerprints, PlanFingerprint(plan)), AcceptPlan(env, s, plan, c))
  {
    hide PlanFingerprint, Count;
  }

  lemma PlanningByTheRules(env: Env, s: State, c: Counters, replan: bool)
    requires env.Valid()
    ensures Drafts(env, s, c, replan, s.planFingerprints, InvokePlanner(env, s, c, replan))
  {
    hide Env.Valid, Plan, Retries, Concludes, PlanFingerprint, Count, Takes, AcceptPlan;
    if !(replan && c.replans >= env.config.maxReplans) {
      var d := if replan then c.(replans := c.replans + 1) else c;
      Ledger.AttemptsGiven(env);
      var n := PlanByTheReplies(env, d, 1);
      var p := Plan(env, d, 1);
      if p.PlanReady? {
        TakingByTheRules(env, s, p.plan, p.counters);
      }
      assert Uses(env, s, p, s.planFingerprints, InvokePlanner(env, s, c, replan));
    }
  }

  // ---------------------------------------------------------------------
  // Scheduling

  /** The task with this id has this status. */
  ghost predicate Stands(tasks: seq<PlanTask>, id: string, status: TaskStatus) {
    exists i :: 0 <= i < |tasks| && tasks[i].taskId == id && tasks[i].status == status
  }

  ghost predicate Waits(t: PlanTask) {
    t.status in {Pending, Ready}
  }

  /** It waits for a task that failed or is blocked. */
  ghost predicate Hopeless(tasks: seq<PlanTask>, t: PlanTask) {
    Waits(t) && exists d :: d in t.dependencies && (Stands(tasks, d, Failed) || Stands(tasks, d, Blocked))
  }

  /** It waits, and all it depends on is completed. */
  ghost predicate Due(tasks: seq<PlanTask>, t: PlanTask) {
    Waits(t) && forall d | d in t.dependencies :: Stands(tasks, d, Completed)
  }

  /** Task `i` once the plan is settled. */
  ghost predicate Settles(tasks: seq<PlanTask>, i: nat, t: PlanTask)
    requires i < |tasks|
  {
    if Hopeless(tasks, tasks[i]) then
      t == tasks[i].(status := Blocked, failureReason := Some("blocked_by_failed_dependency"))
    else if Due(tasks, tasks[i]) then t == tasks[i].(status := Ready)
    else t == tasks[i]
  }

  /** Task `i` is due, and none that is due comes before it. */
  ghost predicate First(tasks: seq<PlanTask>, i: nat) {
    && i < |tasks| && Due(tasks, tasks[i])
    && forall j: nat | j < |tasks| && Due(tasks, tasks[j]) ::
         tasks[i].priority < tasks[j].priority || (tasks[i].priority == tasks[j].priority && i <= j)
  }

  /** The first task that is due goes to the executor; with none due, the run ends. */
  ghost predicate Schedules(s: State, c: Counters, t: State)
    requires s.plan.Some?
  {
    var tasks := s.plan.value.tasks;
    && t.plan.Some? && |t.plan.value.tasks| == |tasks|
    && t.plan == Some(s.plan.value.(tasks := t.plan.value.tasks))
    && (forall i: nat | i < |tasks| :: Settles(tasks, i, t.plan.value.tasks[i]))
    && if exists i: nat :: i < |tasks| && Due(tasks, tasks[i]) then
         && t.route == ToExecutor && t.counters == c && t.reason == s.reason
         && t.memory == s.memory.(currentPlan := t.plan)
         && exists i: nat :: First(tasks, i) && t.current == Some(tasks[i].taskId)
       else if exists j: nat :: j < |tasks| && t.plan.value.tasks[j].status in {Failed, Blocked} then
         Refuses(s, c, t, Deadlock, "No dependency-ready task is available.")
       else Refuses(s, c, t, NoReadyTask, "No dependency-ready task is available.")
  }

  lemma StandsIsStatus(tasks: seq<PlanTask>, id: string, status: TaskStatus)
    ensures Stands(tasks, id, status) <==> HasStatus(tasks, id, status)
  {
    if HasStatus(tasks, id, status) {
      var t :| t in tasks && t.taskId == id && t.status == status;
      var i :| 0 <= i < |tasks| && tasks[i] == t;
    }
  }

  lemma HopelessIsDoomed(tasks: seq<PlanTask>, t: PlanTask)
    ensures Hopeless(tasks, t) <==> Doomed(tasks, t)
    ensures Due(tasks, t) <==> Runnable(tasks, t)
  {
    hide Stands, HasStatus;
    forall d, status ensures Stands(tasks, d, status) <==> HasStatus(tasks, d, status) {
      StandsIsStatus(tasks, d, status);
    }
  }

  /** No task both waits in vain and is due: each id has one status. */
  lemma DueIsNotHopeless(tasks: seq<PlanTask>, t: PlanTask)
    requires DistinctIds(tasks) && Hopeless(tasks, t)
    ensures !Due(tasks, t)
  {
  }

  /** Blocking leaves it open which tasks are due. */
  lemma BlockingKeepsDue(tasks: seq<PlanTask>, i: nat)
    requires i < |tasks| && DistinctIds(tasks)
    ensures Runnable(Blocking(tasks), Blocking(tasks)[i]) <==> Due(tasks, tasks[i])
  {
    hide Doomed, Hopeless;
    HopelessIsDoomed(tasks, tasks[i]);
    if Doomed(tasks, tasks[i]) {
      DueIsNotHopeless(tasks, tasks[i]);
    } else {
      forall d ensures HasStatus(Blocking(tasks), d, Completed) <==> Stands(tasks, d, Completed) {
        BlockingKeepsCompleted(tasks, d);
      }
    }
  }

  lemma BlockingKeepsCompleted(tasks: seq<PlanTask>, id: string)
    ensures HasStatus(Blocking(tasks), id, Completed) <==> Stands(tasks, id, Completed)
  {
    hide Doomed, HasStatus;
    var us := Blocking(tasks);
    StandsIsStatus(us, id, Completed);
    forall i: nat | i < |tasks| ensures us[i].taskId == tasks[i].taskId
                                 && (us[i].status == Completed <==> tasks[i].status == Completed) {
      DoomedWaits(tasks, tasks[i]);
    }
  }

  lemma DoomedWaits(tasks: seq<PlanTask>, t: PlanTask)
    ensures Doomed(tasks, t) ==> Waiting(t)
  {
  }

  lemma SettledByTheRules(tasks: seq<PlanTask>, i: nat)
    requires i < |tasks| && DistinctIds(tasks)
    ensures Settles(tasks, i, Readying(Blocking(tasks))[i])
  {
    hide Doomed, Hopeless, Due, Runnable, DistinctIds;
    HopelessIsDoomed(tasks, tasks[i]);
    BlockingKeepsDue(tasks, i);
    if Hopeless(tasks, tasks[i]) {
      DueIsNotHopeless(tasks, tasks[i]);
    }
  }

  lemma ChoiceIsFirst(tasks: seq<PlanTask>)
    requires DistinctIds(tasks)
    ensures var choice := Choice(Blocking(tasks));
            && (choice.Some? <==> exists i: nat :: i < |tasks| && Due(tasks, tasks[i]))
            && (choice.Some? ==> First(tasks, choice.value))
  {
    hide Doomed, Due, Runnable, DistinctIds, BestUpTo;
    forall i: nat | i < |tasks| ensures Runnable(Blocking(tasks), Blocking(tasks)[i]) <==> Due(tasks, tasks[i]) {
      BlockingKeepsDue(tasks, i);
    }
  }

  lemma SchedulingByTheRules(s: State, c: Counters)
    requires PlanSound(s)
    ensures Schedules(s, c, Schedule(s, c))
  {
    hide Schedule, Due, First, Settles, Choice, Readying, Blocking, DistinctIds, ValidTask, Verdict, SameTasks;
    ScheduleEffect(s, c);
    var tasks := s.plan.value.tasks;
    forall i: nat | i < |tasks| ensures Settles(tasks, i, Readying(Blocking(tasks))[i]) {
      SettledByTheRules(tasks, i);
    }
    ChoiceIsFirst(tasks);
  }

  // ---------------------------------------------------------------------
  // Review and reflection

  /** The run acts on this review of its last execution, with this text for completion. */
  ghost predicate Acts(s: State, c: Counters, current: PlanTask, review: ReviewResult, candidate: string, t: State) {
    && t.plan == s.plan && t.trace == s.trace
    && t.decision == (if review.decision == Fail then s.decision else Some(review.decision))
    && t.memory == s.memory.(currentPlan := s.plan, reviews := s.memory.reviews + [review],
                             finalOutcome := if review.decision == Complete then Some("completed")
                                             else s.memory.finalOutcome)
    && t.counters == c.(reviewerCalls := c.reviewerCalls + 1,
                        failures := c.failures + if current.status == Completed
                                                    && review.decision in {Reflect, Replan, Fail} then 1 else 0)
    && match review.decision
       case Complete => t.route == ToPersist && t.reason == Some(Completion) && t.response == candidate
       case Continue => t.route == ToScheduler && t.reason == s.reason
       case Reflect => t.route == ToReflection && t.reason == s.reason
       case Replan => t.route == ToReplan && t.reason == s.reason
       case Fail =>
         && t.route == ToPersist && t.response == review.reason
         && t.reason == Some(ReasonFor(review.failureType))
  }

  ghost function ReasonFor(failureType: Option<string>): Termination {
    if failureType == Some("unsupported_completion_claim") then UnsupportedCompletionClaim
    else if failureType == Some("unsafe_retry_blocked") then UnsafeRetryBlocked
    else ExecutorFailure
  }

  /** The text for completion: asked for when every task is completed, and then of the memory with the
      plan as it stands. */
  ghost function TextFor(env: Env, s: State): string
    requires s.plan.Some?
  {
    if forall i | 0 <= i < |s.plan.value.tasks| :: s.plan.value.tasks[i].status == Completed
    then env.builder(s.memory.(currentPlan := s.plan)) else ""
  }

  /** The reviewer is asked about task `i`, and the run acts on what it says, or ends for want of it. */
  ghost predicate Reviews(env: Env, s: State, c: Counters, i: nat, t: State)
    requires s.plan.Some? && i < |s.plan.value.tasks|
  {
    var current := s.plan.value.tasks[i];
    match env.reviewer
    case Scripted(script) =>
      (match script(c.reviewerCalls)
       case Reviewed(review) => Acts(s, c, current, review, TextFor(env, s), t)
       case ReviewRaised =>
         && t.route == ToPersist && t.reason == Some(ReviewerFailure) && t.response == "Reviewer failed safely."
         && t.memory == s.memory.(currentPlan := s.plan) && t.trace == s.trace
         && t.counters == c.(reviewerCalls := c.reviewerCalls + 1, failures := c.failures + 1))
    case EvidenceBased => exists review :: Acts(s, c, current, review, TextFor(env, s), t)
  }

  lemma ActingByTheRules(s: State, c: Counters, current: PlanTask, review: ReviewResult, candidate: string)
    ensures Acts(s, c, current, review, candidate,
                 ActOnReview(s, current, s.memory.(currentPlan := s.plan, reviews := s.memory.reviews + [review]),
                             c.(reviewerCalls := c.reviewerCalls + 1), review, candidate))
  {
  }

  lemma TextIsCandidate(env: Env, s: State)
    requires s.plan.Some?
    ensures TextFor(env, s) == Candidate(env, s.plan.value.tasks, s.memory.(currentPlan := s.plan)).GetOr("")
  {
  }

  lemma ReviewingByTheRules(env: Env, s: State, c: Counters, i: nat)
    requires s.plan.Some? && s.current.Some? && IndexOf(s.plan.value.tasks, s.current.value) == Some(i)
    ensures Reviews(env, s, c, i, ReviewCurrent(env, s, c))
  {
    hide IndexOf, EvidenceReview, Candidate, ActOnReview, TextFor, Acts;
    var tasks := s.plan.value.tasks;
    TextIsCandidate(env, s);
    var reply := ReviewOf(env, c.reviewerCalls, tasks, tasks[i], s.memory.(currentPlan := s.plan));
    if reply.Reviewed? {
      ActingByTheRules(s, c, tasks[i], reply.review, TextFor(env, s));
    }
  }

  /** The last review is reflected on, if a reflection is left. */
  ghost predicate Reflects(env: Env, s: State, c: Counters, t: State) {
    if c.reflections >= env.config.maxReflections then
      Refuses(s, c, t, MaxReflectionsExceeded, "The bounded reflection budget was exhausted.")
    else
      && t.route == ToReplan && t.counters == c.(reflections := c.reflections + 1) && t.reason == s.reason
      && |t.memory.reflections| == |s.memory.reflections| + 1
      && t.memory == s.memory.(reflections := t.memory.reflections) && s.memory.reflections <= t.memory.reflections
  }

  lemma ReflectingByTheRules(env: Env, s: State, c: Counters)
    requires s.memory.reviews != []
    ensures Reflects(env, s, c, ReflectOnReview(env, s, c))
  {
  }

  // ---------------------------------------------------------------------
  // Every node

  /** The record that is kept: the plan as it stands, and whether the run was completed. */
  ghost predicate Persists(env: Env, s: State, t: State) {
    && t.plan == s.plan && t.counters == s.counters && t.trace == s.trace
    && t.memory == s.memory.(currentPlan := s.plan,
                             finalOutcome := Some(if s.reason == Some(Completion) then "completed" else "failed"))
    && if env.writeOk then t.reason == s.reason && t.response == s.response
       else t.reason == Some(MemoryFailure)
            && t.response == "Orchestration ended, but episodic memory persistence failed."
  }

  /** Where a node's step leads. */
  ghost predicate Leads(route: Route, node: Node) {
    match node
    case Planner => route == ToPlanner
    case SchedulerNode => route == ToScheduler
    case ExecutorNode => route == ToExecutor
    case ReviewerNode => route == ToReviewer
    case ReflectionNode => route == ToReflection
    case ReplanNode => route == ToReplan
    case PersistMemory => route == ToPersist
    case _ => false
  }

  /** One step of a run, from node to node. `taken` says how often plans of each kind were taken. */
  ghost predicate Obeys(env: Env, k: Configuration, taken: map<string, nat>, n: Configuration) {
    var s, t, c := k.state, n.state, k.state.counters.(steps := k.state.counters.steps + 1);
    if k.node == End then n == k
    else if k.node == PersistMemory then n.node == End && Persists(env, s, t)
    else if s.counters.steps >= env.config.maxSteps then
      && n.node == (if k.node == RetrieveMemory then Planner else PersistMemory)
      && Refuses(s, s.counters, t, MaxStepsExceeded,
                 "Orchestration stopped before the next node because its step budget was exhausted.")
    else if k.node == RetrieveMemory then n.node == Planner && Recalls(env, s, c, t)
    else
      && Leads(t.route, n.node)
      && match k.node
         case Planner => Drafts(env, s, c, false, taken, t)
         case ReplanNode => Drafts(env, s, c, true, taken, t)
         case SchedulerNode => s.plan.Some? && Schedules(s, c, t)
         case ExecutorNode => exists i: nat :: AtTask(s, i) && ByTheRules(env, s, c, i, t)
         case ReviewerNode => exists i: nat :: AtTask(s, i) && Reviews(env, s, c, i, t)
         case _ => Reflects(env, s, c, t)
  }

  lemma RecordByTheRules(env: Env, s: State)
    ensures Persists(env, s, Persist(env, s))
  {
    hide Text;
    PersistenceSays();
  }

  lemma PersistenceSays()
    ensures Text(PersistenceFailed) == "Orchestration ended, but episodic memory persistence failed."
  {
  }

  lemma OutOfStepsByTheRules(s: State)
    ensures Refuses(s, s.counters, OutOfSteps(s), MaxStepsExceeded,
                    "Orchestration stopped before the next node because its step budget was exhausted.")
  {
    hide Text;
    StepsSay();
  }

  lemma StepsSay()
    ensures Text(StepsSpent) ==
            "Orchestration stopped before the next node because its step budget was exhausted."
  {
  }

  lemma TargetLeads(node: Node, route: Route)
    ensures Leads(route, Target(route))
    ensures node !in {RetrieveMemory, PersistMemory, End} ==> Next(node, route) == Target(route)
    ensures Target(ToPersist) == PersistMemory
  {
  }

  lemma StepByTheRules(env: Env, k: Configuration)
    requires env.Valid() && Accounting.Sound(env, k) && Once(env.config, k.state)
    ensures Obeys(env, k, k.state.planFingerprints, Step(env, k))
  {
    hide Env.Valid, ValidPlan, PlanSound, Placed, Once, Plan, Recalls, Drafts, Schedules, ByTheRules, Reviews, Reflects,
         Persists, Refuses, Work, Persist, OutOfSteps, Target, Leads, Ids;
    var s, c := k.state, Counted(k.state.counters);
    RecordByTheRules(env, s);
    OutOfStepsByTheRules(s);
    if k.node != End && k.node != PersistMemory && s.counters.steps < env.config.maxSteps {
      TargetLeads(k.node, RunNode(env, k.node, s).route);
      WorkOf(env, k.node, s);
      match k.node
      case RetrieveMemory => RetrievalByTheRules(env, s, c);
      case Planner => PlanningByTheRules(env, s, c, false);
      case ReplanNode => PlanningByTheRules(env, s, c, true);
      case SchedulerNode => SchedulerObeys(s, c);
      case ReflectionNode => ReflectingByTheRules(env, s, c);
      case _ => TaskNodeObeys(env, k);
    } else {
      OutOfStepsRoute(s);
      TargetLeads(k.node, ToPersist);
    }
  }

  lemma SchedulerObeys(s: State, c: Counters)
    requires PlanSound(s)
    ensures s.plan.Some? && Schedules(s, c, Schedule(s, c))
  {
    hide Schedules, ValidPlan, Verdict;
    SchedulingByTheRules(s, c);
  }

  lemma TaskNodeObeys(env: Env, k: Configuration)
    requires Accounting.Sound(env, k) && Once(env.config, k.state) && (k.node == ExecutorNode || k.node == ReviewerNode)
    ensures var s, c := k.state, Counted(k.state.counters);
            exists i: nat :: AtTask(s, i)
              && if k.node == ExecutorNode then ByTheRules(env, s, c, i, ExecuteCurrent(env, s, c))
                 else Reviews(env, s, c, i, ReviewCurrent(env, s, c))
  {
    hide ValidPlan, PlanSound, Once, ByTheRules, Reviews, ExecuteCurrent, ReviewCurrent, Ids;
    var s, c := k.state, Counted(k.state.counters);
    IndexOfMember(s.plan.value.tasks, s.current.value);
    var i := IndexOf(s.plan.value.tasks, s.current.value).value;
    if k.node == ExecutorNode {
      CallsAreTraced(env, s);
      ExecutionByTheRules(env, s, c, i);
    } else {
      ReviewingByTheRules(env, s, c, i);
    }
  }

  lemma CallsAreTraced(env: Env, s: State)
    requires Accounted(env, ExecutorNode, s)
    ensures s.counters.toolCalls == |s.trace|
  {
  }

  // ---------------------------------------------------------------------
  // Every run

  /** The run takes a plan of this work in its `j`-th step. */
  ghost predicate Took(env: Env, j: nat, key: string)
    requires env.Valid()
  {
    var n := At(env, j + 1);
    && At(env, j).node in {Planner, ReplanNode} && n.node == SchedulerNode
    && n.state.plan.Some? && PlanFingerprint(n.state.plan.value) == key
  }

  /** How often the run took a plan of this work before its `k`-th step. */
  ghost function TimesTaken(env: Env, k: nat, key: string): nat
    requires env.Valid()
  {
    if k == 0 then 0 else TimesTaken(env, k - 1, key) + if Took(env, k - 1, key) then 1 else 0
  }

  /** A plan was taken and noted, or the notes stay. */
  ghost predicate Notes(s: State, t: State, planning: bool) {
    if planning && t.route == ToScheduler then
      && t.plan.Some?
      && forall key ::
           var more := if PlanFingerprint(t.plan.value) == key then 1 else 0;
           Count(t.planFingerprints, key) == Count(s.planFingerprints, key) + more
    else t.planFingerprints == s.planFingerprints
  }

  lemma TakingIsNoted(env: Env, s: State, c: Counters, replan: bool)
    requires env.Valid()
    ensures Notes(s, InvokePlanner(env, s, c, replan), true)
  {
    hide Env.Valid, Plan, PlanFingerprint, Text;
  }

  lemma OthersNoteNothing(env: Env, k: Configuration)
    requires env.Valid() && Accounting.Sound(env, k) && k.node !in {Planner, ReplanNode}
    ensures Notes(k.state, RunNode(env, k.node, k.state), false)
  {
    hide Env.Valid, ValidPlan, PlanSound, Schedule, Execute, ReviewCurrent, Text, Ids;
    var s, c := k.state, Counted(k.state.counters);
    match k.node
    case SchedulerNode => Ledger.SchedulerRecords(s, c);
    case ReviewerNode =>
      IndexOfMember(s.plan.value.tasks, s.current.value);
      Ledger.ReviewRecords(env, s, c, IndexOf(s.plan.value.tasks, s.current.value).value);
    case _ =>
  }

  lemma StepNotes(env: Env, k: Configuration)
    requires env.Valid() && Accounting.Sound(env, k)
    ensures Notes(k.state, Step(env, k).state, k.node in {Planner, ReplanNode})
  {
    hide Env.Valid, ValidPlan, PlanSound, Placed, Accounted, InvokePlanner, Work, PlanFingerprint, Count, Text;
    if k.node in {Planner, ReplanNode} {
      var s := k.state;
      WorkOf(env, k.node, s);
      TakingIsNoted(env, s, Counted(s.counters), k.node == ReplanNode);
    } else {
      OthersNoteNothing(env, k);
    }
  }

  /** What the run notes of the plans it took is what it took. */
  lemma {:induction false} TakingsAreNoted(env: Env, k: nat, key: string)
    requires env.Valid()
    ensures Count(At(env, k).state.planFingerprints, key) == TimesTaken(env, k, key)
  {
    hide RunNode, Env.Valid, Accounting.Sound, PlanFingerprint;
    if k > 0 {
      TakingsAreNoted(env, k - 1, key);
      AlwaysSound(env, k - 1);
      NextOf(env, k - 1);
      StepNotes(env, At(env, k - 1));
      if At(env, k - 1).node in {Planner, ReplanNode} {
        NoteOfTaking(env, k - 1);
      }
    }
  }

  lemma NoteOfTaking(env: Env, j: nat)
    requires env.Valid() && At(env, j).node in {Planner, ReplanNode}
    ensures At(env, j + 1).node == SchedulerNode <==> At(env, j + 1).state.route == ToScheduler
  {
    hide RunNode, Env.Valid;
    NextOf(env, j);
  }

  /** Every step of every run follows the rules, for every planner, tool and reviewer; and plans of the
      same work are taken no more often than the limit allows. */
  lemma EveryStepByTheRules(env: Env, k: nat)
    requires env.Valid()
    ensures Obeys(env, At(env, k), At(env, k).state.planFingerprints, At(env, k + 1))
    ensures forall key :: Count(At(env, k).state.planFingerprints, key) == TimesTaken(env, k, key)
    ensures forall key :: TimesTaken(env, k, key) <= env.config.repeatedPlanLimit
  {
    hide At, Env.Valid, Accounting.Sound, Once, Obeys, TimesTaken, Count, Ledger.Balanced;
    AlwaysSound(env, k);
    AlwaysOnce(env, k);
    NextOf(env, k);
    StepByTheRules(env, At(env, k));
    Ledger.AlwaysBalanced(env, k);
    forall key ensures Count(At(env, k).state.planFingerprints, key) == TimesTaken(env, k, key) {
      TakingsAreNoted(env, k, key);
    }
  }

  /** With the evidence reviewer: the review the run acts on judges the last evidence and weighs the
      text for completion. */
  lemma EveryReviewByTheRules(env: Env, k: nat) returns (i: nat, review: ReviewResult)
    requires Wired(env)
    requires At(env, k).node == ReviewerNode && At(env, k).state.counters.steps < env.config.maxSteps
    ensures var s, t, c := At(env, k).state, At(env, k + 1).state, Counted(At(env, k).state.counters);
            && AtTask(s, i) && s.memory.evidence != []
            && Acts(s, c, s.plan.value.tasks[i], review, TextFor(env, s), t)
            && Judges(review, s.memory.evidence[|s.memory.evidence| - 1], s.plan.value.tasks[i].objective)
            && Weighs(review, s.plan.value.tasks, s.memory.evidence, TextFor(env, s))
  {
    hide At, Env.Valid, Env.FreshPlans, Accounting.Sound, Supported, Work, Acts, Judges, Weighs, TextFor;
    AlwaysSound(env, k);
    AlwaysSupported(env, k);
    NextOf(env, k);
    var s := At(env, k).state;
    WorkOf(env, ReviewerNode, s);
    i, review := ReviewIsReasoned(env, s, Counted(s.counters));
  }

  lemma ReviewIsReasoned(env: Env, s: State, c: Counters) returns (i: nat, review: ReviewResult)
    requires env.reviewer == EvidenceBased && PlanValid(s) && Supported(env, ReviewerNode, s)
    ensures AtTask(s, i) && s.memory.evidence != []
    ensures Acts(s, c, s.plan.value.tasks[i], review, TextFor(env, s), ReviewCurrent(env, s, c))
    ensures Judges(review, s.memory.evidence[|s.memory.evidence| - 1], s.plan.value.tasks[i].objective)
    ensures Weighs(review, s.plan.value.tasks, s.memory.evidence, TextFor(env, s))
  {
    hide ValidPlan, IndexOf, EvidenceReview, ActOnReview, Backed, AllCompleted, Acts, Judges, Weighs;
    i := JustRanPlace(s);
    EvidencePresent(s, i);
    JustRanIsRecorded(s, i);
    var tasks, memory := s.plan.value.tasks, s.memory.(currentPlan := s.plan);
    var candidate := Candidate(env, tasks, memory);
    review := EvidenceReview(tasks, tasks[i], s.memory.evidence, candidate);
    TextIsCandidate(env, s);
    ActingByTheRules(s, c, tasks[i], review, TextFor(env, s));
    ReviewJudges(tasks, tasks[i], s.memory.evidence, candidate);
    ReviewWeighs(tasks, tasks[i], s.memory.evidence, TextFor(env, s), candidate);
  }
}
