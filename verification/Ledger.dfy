/** The other counters of an orchestration run: budgets of calls, replans and reflections, and
    where every counted failure comes from. */
module Ledger {
  import opened Options
  import opened Json
  import opened Keys
  import opened Plans
  import opened Memory
  import opened References
  import opened Results
  import opened Notices
  import opened Scheduler
  import opened Selection
  import opened Graph
  import opened Runs
  import opened Effects
  import opened Accounting

  // ---------------------------------------------------------------------
  // Failures

  predicate Overruling(review: ReviewResult) {
    review.decision == Reflect || review.decision == Replan || review.decision == Fail
  }

  /** Executions that failed. */
  function Failures(executions: seq<TaskExecution>): nat {
    if executions == [] then 0
    else
      var last := |executions| - 1;
      Failures(executions[..last]) + if executions[last].status == Completed then 0 else 1
  }

  /** Reviews that turned down a completed execution; the `i`-th review is of the `i`-th execution. */
  function Overruled(reviews: seq<ReviewResult>, executions: seq<TaskExecution>): nat
    requires |reviews| <= |executions|
  {
    if reviews == [] then 0
    else
      var last := |reviews| - 1;
      Overruled(reviews[..last], executions)
      + if Overruling(reviews[last]) && executions[last].status == Completed then 1 else 0
  }

  lemma FailuresSnoc(executions: seq<TaskExecution>, x: TaskExecution)
    ensures Failures(executions + [x]) == Failures(executions) + if x.status == Completed then 0 else 1
  {
    assert (executions + [x])[..|executions|] == executions;
  }

  lemma {:induction false} OverruledOfPrefix(reviews: seq<ReviewResult>, executions: seq<TaskExecution>,
                                             x: TaskExecution)
    requires |reviews| <= |executions|
    ensures Overruled(reviews, executions + [x]) == Overruled(reviews, executions)
  {
    if reviews != [] {
      OverruledOfPrefix(reviews[..|reviews| - 1], executions, x);
    }
  }

  lemma OverruledSnoc(reviews: seq<ReviewResult>, review: ReviewResult, executions: seq<TaskExecution>)
    requires |reviews| < |executions|
    ensures Overruled(reviews + [review], executions) ==
            Overruled(reviews, executions) +
            if Overruling(review) && executions[|reviews|].status == Completed then 1 else 0
  {
    assert (reviews + [review])[..|reviews|] == reviews;
  }

  // ---------------------------------------------------------------------
  // The invariant

  /** Between nodes a run has reviewed all it executed, but for the execution a review is due
      for; its failures are those of the planner's retries, of the executions, and of the
      reviews that overruled one. */
  ghost predicate Balanced(node: Node, s: State) {
    var c, m := s.counters, s.memory;
    && (node == PersistMemory ==> Settled(s))
    && (!Ending(node) ==>
          && |m.reviews| + (if node == ReviewerNode then 1 else 0) == |m.executions|
          && c.reviewerCalls == |m.reviews|
          && c.failures == c.retries + Failures(m.executions) + Overruled(m.reviews, m.executions)
          && (node == RetrieveMemory || node == Planner ==> c.plannerCalls == 0 == c.retries)
          && (node == SchedulerNode || Working(node) ==> c.plannerCalls == 1 + c.replans + c.retries)
          && (node == ReviewerNode ==>
                forall i: nat | AtTask(s, i) ::
                  s.plan.value.tasks[i].status == m.executions[|m.executions| - 1].status))
  }

  /** The last node of the run failed in a way that no execution and no retry accounts for: the
      planner for good, or the reviewer. */
  predicate FailedLast(s: State) {
    || s.reason == Some(ReviewerFailure) || s.reason == Some(ProviderFailure)
    || s.reason == Some(CyclicDependency) || s.reason == Some(InvalidDependency)
    || (s.reason == Some(InvalidPlan) && s.response == Text(PlanningUnusable))
  }

  /** The same of a run about to persist: its last failure is one more, a review that raised was
      asked for but not recorded, and a planner out of model calls was not asked. */
  ghost predicate Settled(s: State) {
    var c, m := s.counters, s.memory;
    && |m.reviews| <= |m.executions| <= |m.reviews| + 1
    && (|m.reviews| < |m.executions| ==> s.reason == Some(ReviewerFailure) || s.reason == Some(MaxStepsExceeded))
    && c.reviewerCalls == |m.reviews| + (if s.reason == Some(ReviewerFailure) then 1 else 0)
    && c.failures == c.retries + Failures(m.executions) + Overruled(m.reviews, m.executions)
                     + (if FailedLast(s) then 1 else 0)
    && c.plannerCalls + (if s.reason == Some(ModelCallBudgetExhausted) then 1 else 0) == 1 + c.replans + c.retries
  }

  /** The budgets. */
  ghost predicate Limited(env: Env, s: State) {
    var c, config := s.counters, env.config;
    && c.modelCalls == (if env.usesModel then c.plannerCalls else 0) <= config.maxModelCalls
    && c.toolCalls <= config.maxToolCalls
    && c.replans <= config.maxReplans
    && c.reflections == |s.memory.reflections| <= config.maxReflections
    && forall key :: Count(s.planFingerprints, key) <= config.repeatedPlanLimit
  }

  // ---------------------------------------------------------------------
  // The planner

  /** Reasons the planner loop gives up for. */
  predicate PlanningReason(reason: Termination) {
    || reason == ModelCallBudgetExhausted || reason == InvalidPlan || reason == ProviderFailure
    || reason == CyclicDependency || reason == InvalidDependency
  }

  lemma {:induction false} PlanCounts(env: Env, c: Counters, attempt: nat)
    requires env.Valid() && 1 <= attempt <= env.config.plannerAttempts
    requires c.modelCalls == (if env.usesModel then c.plannerCalls else 0) <= env.config.maxModelCalls
    ensures var p := Plan(env, c, attempt);
            && p.counters.modelCalls == (if env.usesModel then p.counters.plannerCalls else 0)
            && p.counters.modelCalls <= env.config.maxModelCalls
            && p.counters.reviewerCalls == c.reviewerCalls
            && (p.PlanReady? ==>
                  && p.counters.plannerCalls - c.plannerCalls == 1 + p.counters.retries - c.retries
                  && p.counters.failures - c.failures == p.counters.retries - c.retries)
            && (p.PlanStopped? ==>
                  && PlanningReason(p.reason)
                  && p.counters.plannerCalls - c.plannerCalls - p.counters.retries + c.retries ==
                     (if p.reason == ModelCallBudgetExhausted then 0 else 1)
                  && p.counters.failures - c.failures - p.counters.retries + c.retries ==
                     (if p.reason == ModelCallBudgetExhausted then 0 else 1)
                  && (p.reason == InvalidPlan ==> p.response == Text(PlanningUnusable)))
    decreases env.config.plannerAttempts - attempt
  {
    hide Verdict, Text, ValidTask;
    var reply := env.planner(c.plannerCalls);
    if reply.Planned? {
      VerdictReasons(reply.plan.tasks);
    }
    var affordable := !env.usesModel || c.modelCalls < env.config.maxModelCalls;
    if affordable && !reply.Planned? && reply.retryable && attempt < env.config.plannerAttempts {
      var called := c.(modelCalls := c.modelCalls + if env.usesModel then 1 else 0, plannerCalls := c.plannerCalls + 1);
      PlanCounts(env, called.(failures := called.failures + 1, retries := called.retries + 1), attempt + 1);
    }
  }

  lemma VerdictReasons(tasks: seq<PlanTask>)
    requires DistinctIds(tasks)
    ensures var v := Verdict(tasks); v.Some? ==> v.value == CyclicDependency || v.value == InvalidDependency
  {
  }

  lemma AcceptCounts(env: Env, s: State, plan: TaskPlan, c: Counters)
    requires forall key :: Count(s.planFingerprints, key) <= env.config.repeatedPlanLimit
    ensures var t := AcceptPlan(env, s, plan, c);
            && t.counters == c && t.memory.reflections == s.memory.reflections && t.memory.reviews == s.memory.reviews
            && t.memory.executions == s.memory.executions
            && (t.route == ToPersist ==> t.reason == Some(RepeatedPlan))
            && forall key :: Count(t.planFingerprints, key) <= env.config.repeatedPlanLimit
  {
    hide PlanFingerprint, Text;
    var t := AcceptPlan(env, s, plan, c);
    forall key ensures Count(t.planFingerprints, key) <= env.config.repeatedPlanLimit {
      assert Count(s.planFingerprints, key) <= env.config.repeatedPlanLimit;
    }
  }

  lemma TerminalCounts(s: State, reason: Termination, response: string, c: Counters)
    ensures var t := Terminal(s, reason, response, c);
            && t.counters == c && t.memory == s.memory && t.planFingerprints == s.planFingerprints
            && t.route == ToPersist && t.reason == Some(reason) && t.response == response
  {
  }

  /** The counters the planner loop starts from, in the planner and in the replan node. */
  function Replanned(c: Counters, replan: bool): Counters {
    if replan then c.(replans := c.replans + 1) else c
  }

  lemma StoppedLedger(env: Env, s: State, c: Counters, replan: bool)
    requires env.Valid() && Limited(env, s) && c == Counted(s.counters)
    requires Balanced(if replan then ReplanNode else Planner, s)
    requires replan ==> c.replans < env.config.maxReplans
    requires !replan ==> c.replans == 0
    ensures var p := Plan(env, Replanned(c, replan), 1);
            p.PlanStopped? ==>
              var t := Terminal(s, p.reason, p.response, p.counters);
              Limited(env, t) && Settled(t)
  {
    hide Env.Valid, Plan, Terminal, Text, Count, Failures, Overruled;
    AttemptsGiven(env);
    PlannedIsValid(env, Replanned(c, replan), 1);
    PlanCounts(env, Replanned(c, replan), 1);
    var p := Plan(env, Replanned(c, replan), 1);
    if p.PlanStopped? {
      TerminalCounts(s, p.reason, p.response, p.counters);
    }
  }

  lemma ReadyLedger(env: Env, s: State, c: Counters, replan: bool)
    requires env.Valid() && Limited(env, s) && c == Counted(s.counters)
    requires Balanced(if replan then ReplanNode else Planner, s)
    requires replan ==> c.replans < env.config.maxReplans
    requires !replan ==> c.replans == 0
    ensures var p := Plan(env, Replanned(c, replan), 1);
            p.PlanReady? ==>
              var t := AcceptPlan(env, s, p.plan, p.counters);
              Limited(env, t) && Balanced(Target(t.route), t)
  {
    hide Env.Valid, Plan, AcceptPlan, Text, Count, Failures, Overruled;
    AttemptsGiven(env);
    PlannedIsValid(env, Replanned(c, replan), 1);
    PlanCounts(env, Replanned(c, replan), 1);
    var p := Plan(env, Replanned(c, replan), 1);
    if p.PlanReady? {
      AcceptCounts(env, s, p.plan, p.counters);
      RouteOfAccept(env, s, p.plan, p.counters);
    }
  }

  lemma ReplansSpentLedger(env: Env, s: State, c: Counters)
    requires Limited(env, s) && c == Counted(s.counters) && Balanced(ReplanNode, s)
    ensures var t := Terminal(s, MaxReplansExceeded, Text(ReplansSpent), c);
            Limited(env, t) && Settled(t)
  {
    hide Text, Count, Failures, Overruled;
  }

  /** The planner node, from a state entered with the counters before its step. */
  lemma PlannerLedger(env: Env, s: State, c: Counters, replan: bool)
    requires env.Valid() && PlanValid(s) && Limited(env, s) && c == Counted(s.counters)
    requires Balanced(if replan then ReplanNode else Planner, s)
    requires !replan ==> c.replans == 0
    ensures var t := InvokePlanner(env, s, c, replan);
            Limited(env, t) && Balanced(Target(t.route), t)
  {
    hide Env.Valid, ValidPlan, Plan, AcceptPlan, Text, Limited, Settled, Failures, Overruled;
    if replan && c.replans >= env.config.maxReplans {
      ReplansSpentLedger(env, s, c);
    } else {
      StoppedLedger(env, s, c, replan);
      ReadyLedger(env, s, c, replan);
    }
  }

  lemma AttemptsGiven(env: Env)
    requires env.Valid()
    ensures 1 <= env.config.plannerAttempts
  {
  }

  lemma RouteOfAccept(env: Env, s: State, plan: TaskPlan, c: Counters)
    ensures AcceptPlan(env, s, plan, c).route == ToScheduler || AcceptPlan(env, s, plan, c).route == ToPersist
  {
    hide PlanFingerprint, Text, Count;
  }

  // ---------------------------------------------------------------------
  // The other nodes

  /** Reviews, reflections and adopted plans stay. */
  ghost predicate Recorded(s: State, t: State) {
    && t.memory.reviews == s.memory.reviews && t.memory.reflections == s.memory.reflections
    && t.planFingerprints == s.planFingerprints
  }

  lemma SchedulerRecords(s: State, c: Counters)
    requires PlanSound(s)
    ensures Recorded(s, Schedule(s, c))
  {
    hide Dispatch, Verdict, ValidTask, SettledPlan, Blocking, Readying, Choice, Schedule;
    ScheduleEffect(s, c);
    DispatchRecords(s, c, SettledPlan(s.plan.value), Choice(Blocking(s.plan.value.tasks)));
  }

  lemma DispatchRecords(s: State, c: Counters, plan: TaskPlan, choice: Option<nat>)
    requires choice.Some? ==> choice.value < |plan.tasks|
    ensures Recorded(s, Dispatch(s, c, plan, choice))
  {
    hide Text, Stuck;
  }

  lemma SchedulerLedger(env: Env, s: State, c: Counters)
    requires PlanSound(s) && Limited(env, s) && c == Counted(s.counters) && Balanced(SchedulerNode, s)
    ensures var t := Schedule(s, c);
            Limited(env, t) && Balanced(Target(t.route), t)
  {
    hide Schedule, ValidPlan, Verdict, Count, Failures, Overruled;
    SchedulerShape(s, c);
    SchedulerRecords(s, c);
  }

  lemma OutcomeFailures(env: Env, task: PlanTask, evidence: seq<ToolEvidence>, c: Counters,
                        repeated: map<string, nat>, sideEffects: set<string>)
    ensures var o := Execute(env, task, evidence, c, repeated, sideEffects);
            if o.Refused? then
              RefusalReason(o.reason) && (o.reason == InvalidPlan ==> o.message == Text(NoHandler))
            else
              && o.counters == c.(toolCalls := o.counters.toolCalls, failures := o.counters.failures)
              && o.counters.toolCalls <=
                 (if c.toolCalls < env.config.maxToolCalls then env.config.maxToolCalls else c.toolCalls)
              && o.task.status == o.execution.status
              && o.execution.status == (if o.evidence.ok then Completed else Failed)
              && (o.evidence.ok ==> o.counters.failures == c.failures)
  {
    hide Text, Resolve, CanonicalCall, Graph.Succeeded, FailureType, Flag, ErrorOf, ResultOf, Count;
  }

  /** What the executor node adds to the ledger. */
  lemma ExecutorRecords(env: Env, s: State, c: Counters, i: nat)
    requires s.plan.Some? && s.current.Some? && IndexOf(s.plan.value.tasks, s.current.value) == Some(i)
    requires c.toolCalls <= env.config.maxToolCalls
    ensures var t := ExecuteCurrent(env, s, c);
            && Recorded(s, t) && t.counters.toolCalls <= env.config.maxToolCalls
            && (t.route == ToReviewer || t.route == ToPersist)
            && (t.route == ToReviewer ==>
                  && |t.memory.executions| == |s.memory.executions| + 1
                  && t.memory.executions[..|s.memory.executions|] == s.memory.executions
                  && t.current == s.current && t.plan.Some? && i < |t.plan.value.tasks|
                  && t.plan.value.tasks == s.plan.value.tasks[i := t.plan.value.tasks[i]]
                  && t.plan.value.tasks[i].status == t.memory.executions[|s.memory.executions|].status
                  && t.counters == c.(toolCalls := t.counters.toolCalls, failures := t.counters.failures)
                  && t.counters.failures == c.failures + if t.plan.value.tasks[i].status == Completed then 0 else 1)
            && (t.route == ToPersist ==>
                  && t.counters == c && t.memory.executions == s.memory.executions
                  && t.reason.Some? && RefusalReason(t.reason.value)
                  && (t.reason == Some(InvalidPlan) ==> t.response == Text(NoHandler)))
  {
    hide Execute, IndexOf, Text;
    OutcomeFailures(env, s.plan.value.tasks[i], s.memory.evidence, c, s.taskFingerprints, s.sideEffects);
  }

  lemma ExecutorLedger(env: Env, s: State, c: Counters)
    requires PlanSound(s) && Placed(s) && Limited(env, s) && c == Counted(s.counters) && Balanced(ExecutorNode, s)
    ensures var t := ExecuteCurrent(env, s, c);
            Limited(env, t) && Balanced(Target(t.route), t)
  {
    hide ExecuteCurrent, Verdict, ValidTask, Limited, Balanced, Failures, Overruled, Ids, IndexOf, DistinctIds;
    IndexOfMember(s.plan.value.tasks, s.current.value);
    var i := IndexOf(s.plan.value.tasks, s.current.value).value;
    LimitedCalls(env, s);
    ExecutorRecords(env, s, c, i);
    if ExecuteCurrent(env, s, c).route == ToReviewer {
      ExecutedLedger(env, s, c, i);
    } else {
      RefusedLedger(env, s, c, i);
    }
  }

  lemma LimitedCalls(env: Env, s: State)
    requires Limited(env, s)
    ensures s.counters.toolCalls <= env.config.maxToolCalls
  {
  }

  lemma RefusedLedger(env: Env, s: State, c: Counters, i: nat)
    requires s.plan.Some? && s.current.Some? && IndexOf(s.plan.value.tasks, s.current.value) == Some(i)
    requires Limited(env, s) && c == Counted(s.counters) && Balanced(ExecutorNode, s)
    requires ExecuteCurrent(env, s, c).route == ToPersist
    ensures var t := ExecuteCurrent(env, s, c);
            Limited(env, t) && Balanced(PersistMemory, t)
  {
    hide ExecuteCurrent, Count, Failures, Overruled, IndexOf, Text;
    ExecutorRecords(env, s, c, i);
    NoticesDiffer();
  }

  lemma NoticesDiffer()
    ensures Text(NoHandler) != Text(PlanningUnusable)
  {
    assert |Text(NoHandler)| != |Text(PlanningUnusable)|;
  }

  lemma ExecutedLedger(env: Env, s: State, c: Counters, i: nat)
    requires s.plan.Some? && DistinctIds(s.plan.value.tasks)
    requires s.current.Some? && IndexOf(s.plan.value.tasks, s.current.value) == Some(i)
    requires Limited(env, s) && c == Counted(s.counters) && Balanced(ExecutorNode, s)
    requires ExecuteCurrent(env, s, c).route == ToReviewer
    ensures var t := ExecuteCurrent(env, s, c);
            Limited(env, t) && Balanced(ReviewerNode, t)
  {
    hide ExecuteCurrent, Count, Failures, Overruled, IndexOf, RefusalReason;
    var t := ExecuteCurrent(env, s, c);
    ExecutorRecords(env, s, c, i);
    var x := t.memory.executions[|s.memory.executions|];
    assert t.memory.executions == s.memory.executions + [x];
    FailuresSnoc(s.memory.executions, x);
    OverruledOfPrefix(s.memory.reviews, s.memory.executions, x);
    PlaceIsOne(s, i);
  }

  lemma PlaceIsOne(s: State, i: nat)
    requires s.plan.Some? && DistinctIds(s.plan.value.tasks) && s.current.Some?
    requires IndexOf(s.plan.value.tasks, s.current.value) == Some(i)
    ensures forall j: nat | j < |s.plan.value.tasks| && s.plan.value.tasks[j].taskId == s.current.value :: j == i
  {
  }

  /** Reasons a recorded review ends a run for. */
  predicate VerdictReason(reason: Termination) {
    reason == Completion || reason == UnsupportedCompletionClaim || reason == UnsafeRetryBlocked
    || reason == ExecutorFailure
  }

  lemma ActRecords(s: State, current: PlanTask, memory: WorkingMemory, c: Counters, review: ReviewResult,
                   candidate: string)
    ensures var t := ActOnReview(s, current, memory, c, review, candidate);
            && t.memory == memory.(finalOutcome := t.memory.finalOutcome)
            && t.planFingerprints == s.planFingerprints
            && t.counters == c.(failures := c.failures +
                                  if Overruling(review) && current.status == Completed then 1 else 0)
            && (t.route == ToPersist ==> t.reason.Some? && VerdictReason(t.reason.value))
  {
  }

  /** A review was recorded, and counted if it overruled. */
  ghost predicate Judged(s: State, c: Counters, i: nat, t: State)
    requires s.plan.Some? && i < |s.plan.value.tasks|
  {
    && |t.memory.reviews| == |s.memory.reviews| + 1
    && t.memory.reviews == s.memory.reviews + [t.memory.reviews[|s.memory.reviews|]]
    && t.counters.failures == c.failures +
         (if Overruling(t.memory.reviews[|s.memory.reviews|]) &&
             s.plan.value.tasks[i].status == Completed then 1 else 0)
    && (t.route == ToPersist ==> t.reason.Some? && VerdictReason(t.reason.value))
  }

  lemma ReviewRecords(env: Env, s: State, c: Counters, i: nat)
    requires s.plan.Some? && s.current.Some? && IndexOf(s.plan.value.tasks, s.current.value) == Some(i)
    ensures var t := ReviewCurrent(env, s, c);
            && t.memory.executions == s.memory.executions && t.memory.reflections == s.memory.reflections
            && t.planFingerprints == s.planFingerprints
            && t.counters == c.(reviewerCalls := c.reviewerCalls + 1, failures := t.counters.failures)
            && (|| Judged(s, c, i, t)
                || (t.route == ToPersist && t.reason == Some(ReviewerFailure)
                    && t.memory.reviews == s.memory.reviews && t.counters.failures == c.failures + 1))
  {
    hide ReviewOf, ActOnReview, Candidate, IndexOf, Text, Overruling;
    var tasks, memory := s.plan.value.tasks, s.memory.(currentPlan := s.plan);
    var asked := c.(reviewerCalls := c.reviewerCalls + 1);
    var reply := ReviewOf(env, c.reviewerCalls, tasks, tasks[i], memory);
    if reply.Reviewed? {
      ActRecords(s, tasks[i], memory.(reviews := memory.reviews + [reply.review]), asked, reply.review,
                 Candidate(env, tasks, memory).GetOr(""));
    }
  }

  lemma ReviewerLedger(env: Env, s: State, c: Counters)
    requires PlanSound(s) && Placed(s) && Limited(env, s) && c == Counted(s.counters) && Balanced(ReviewerNode, s)
    ensures var t := ReviewCurrent(env, s, c);
            Limited(env, t) && Balanced(Target(t.route), t)
  {
    hide ReviewCurrent, Verdict, ValidTask, Count, Failures, Overruled, Overruling, Ids, IndexOf, DistinctIds;
    IndexOfMember(s.plan.value.tasks, s.current.value);
    var i := IndexOf(s.plan.value.tasks, s.current.value).value;
    var t := ReviewCurrent(env, s, c);
    ReviewRecords(env, s, c, i);
    ReviewEffect(env, s, c);
    assert AtTask(s, i) by { PlaceOfIndex(s, i); }
    if Judged(s, c, i, t) {
      OverruledSnoc(s.memory.reviews, t.memory.reviews[|s.memory.reviews|], s.memory.executions);
    }
  }

  lemma PlaceOfIndex(s: State, i: nat)
    requires s.plan.Some? && s.current.Some? && IndexOf(s.plan.value.tasks, s.current.value) == Some(i)
    ensures AtTask(s, i)
  {
  }

  lemma ReflectionLedger(env: Env, s: State, c: Counters)
    requires s.memory.reviews != [] && Limited(env, s) && c == Counted(s.counters) && Balanced(ReflectionNode, s)
    ensures var t := ReflectOnReview(env, s, c);
            Limited(env, t) && Balanced(Target(t.route), t)
  {
    hide Count, Failures, Overruled, Text;
  }

  lemma RetrieveLedger(env: Env, s: State, c: Counters)
    requires Limited(env, s) && c == Counted(s.counters) && Balanced(RetrieveMemory, s)
    ensures var t := Retrieve(env, s, c);
            Limited(env, t) && Balanced(Planner, t)
  {
    hide Count, Failures, Overruled, Text;
  }

  lemma EndsLedger(env: Env, s: State)
    requires Limited(env, s)
    ensures Limited(env, Persist(env, s)) && Limited(env, OutOfSteps(s))
  {
    hide Count, Text;
  }

  lemma OutOfStepsLedger(node: Node, s: State)
    requires Balanced(node, s) && (node == SchedulerNode || Working(node))
    ensures OutOfSteps(s).route == ToPersist && Settled(OutOfSteps(s))
  {
    hide Failures, Overruled, Text;
  }

  lemma FirstNodesHaveSteps(env: Env, k: Configuration)
    requires env.Valid() && Accounting.Sound(env, k) && (k.node == RetrieveMemory || k.node == Planner)
    ensures k.state.counters.steps < env.config.maxSteps
  {
  }

  lemma LedgerAfterStep(env: Env, k: Configuration)
    requires env.Valid() && Accounting.Sound(env, k) && Limited(env, k.state) && Balanced(k.node, k.state)
    ensures var n := Step(env, k); Limited(env, n.state) && Balanced(n.node, n.state)
  {
    hide Env.Valid, ValidPlan, PlanSound, Placed, Limited, Balanced, Work, Persist, OutOfSteps;
    var s, n := k.state, Step(env, k);
    EndsLedger(env, s);
    if Ending(k.node) {
      assert n.node == End;
      EndIsBalanced(n.state);
    } else if s.counters.steps >= env.config.maxSteps {
      if k.node == RetrieveMemory || k.node == Planner {
        FirstNodesHaveSteps(env, k);
      }
      OutOfStepsLedger(k.node, s);
      SettledIsBalanced(OutOfSteps(s));
    } else {
      WorkLedger(env, k.node, s);
    }
  }

  lemma EndIsBalanced(s: State)
    ensures Balanced(End, s)
  {
  }

  lemma SettledIsBalanced(s: State)
    requires Settled(s)
    ensures Balanced(PersistMemory, s)
  {
  }

  lemma WorkLedger(env: Env, node: Node, s: State)
    requires env.Valid() && Accounting.Sound(env, Configuration(node, s)) && Limited(env, s) && Balanced(node, s)
    requires !Ending(node) && s.counters.steps < env.config.maxSteps
    ensures var t := Work(env, node, s, Counted(s.counters));
            Limited(env, t) && Balanced(Next(node, t.route), t)
  {
    hide ValidPlan, PlanSound, Placed, Limited, Balanced, InvokePlanner, Schedule, ExecuteCurrent,
         ReviewCurrent, ReflectOnReview, Retrieve;
    var c := Counted(s.counters);
    match node
    case RetrieveMemory => RetrieveLedger(env, s, c);
    case Planner => PlannerLedger(env, s, c, false);
    case ReplanNode => PlannerLedger(env, s, c, true);
    case SchedulerNode => SchedulerLedger(env, s, c);
    case ExecutorNode => ExecutorLedger(env, s, c);
    case ReviewerNode => ReviewerLedger(env, s, c);
    case ReflectionNode => ReflectionLedger(env, s, c);
  }

  /** In every run, whoever plans, acts and reviews: calls, replans, reflections and repeated
      plans stay within their budgets, and at every node the counted failures are exactly the
      planner's retries, the failed executions and the overruled ones. */
  lemma {:induction false} AlwaysBalanced(env: Env, k: nat)
    requires env.Valid()
    ensures Limited(env, At(env, k).state) && Balanced(At(env, k).node, At(env, k).state)
  {
    hide RunNode, Env.Valid, Failures, Overruled;
    if k > 0 {
      AlwaysBalanced(env, k - 1);
      AlwaysSound(env, k - 1);
      NextOf(env, k - 1);
      LedgerAfterStep(env, At(env, k - 1));
    } else {
      NothingCounted(env);
    }
  }

  /** A finished run keeps the ledger it was about to persist: its failures are the planner's
      retries, the failed executions, the overruled ones, and one more exactly when the planner
      failed for good or the reviewer raised. */
  lemma FinalLedger(env: Env)
    requires env.Valid()
    ensures Limited(env, Final(env))
    ensures env.writeOk ==> Settled(Final(env))
    ensures exists p: nat | p <= env.config.maxSteps + 1 ::
              && At(env, p).node == PersistMemory && Settled(At(env, p).state)
              && Final(env) == Persist(env, At(env, p).state)
  {
    hide At, Final, Env.Valid, Limited, Settled, Balanced, Persist;
    var p := FinalIsPersisted(env);
    AlwaysBalanced(env, p);
    BalancedIsSettled(At(env, p).state);
    EndsLedger(env, At(env, p).state);
    if env.writeOk {
      SettledStays(env, At(env, p).state);
    }
  }

  lemma BalancedIsSettled(s: State)
    requires Balanced(PersistMemory, s)
    ensures Settled(s)
  {
  }

  lemma SettledStays(env: Env, s: State)
    requires env.writeOk && Settled(s)
    ensures Settled(Persist(env, s))
  {
    hide Failures, Overruled, Text;
  }

  lemma NothingCounted(env: Env)
    ensures Limited(env, INITIAL) && Balanced(RetrieveMemory, INITIAL)
  {
  }

  // ---------------------------------------------------------------------
  // After a failed retrieval

  lemma FirstPlanCalls(env: Env, c: Counters)
    requires env.Valid() && c.modelCalls == 0
    ensures Plan(env, c, 1).counters.plannerCalls >= c.plannerCalls + 1
  {
    var called := c.(modelCalls := c.modelCalls + if env.usesModel then 1 else 0, plannerCalls := c.plannerCalls + 1);
    if 2 <= env.config.plannerAttempts {
      PlanOnlyAdds(env, called.(failures := called.failures + 1, retries := called.retries + 1), 2);
    }
  }

  lemma {:induction false} PlanOnlyAdds(env: Env, c: Counters, attempt: nat)
    requires env.Valid() && 1 <= attempt <= env.config.plannerAttempts
    ensures Plan(env, c, attempt).counters.plannerCalls >= c.plannerCalls
    decreases env.config.plannerAttempts - attempt
  {
    hide Verdict, Text, ValidPlan;
    if attempt < env.config.plannerAttempts {
      var called := c.(modelCalls := c.modelCalls + if env.usesModel then 1 else 0, plannerCalls := c.plannerCalls + 1);
      PlanOnlyAdds(env, called.(failures := called.failures + 1, retries := called.retries + 1), attempt + 1);
    }
  }

  lemma PlannerNodeCalls(env: Env, s: State, c: Counters)
    requires env.Valid() && PlanValid(s) && c.modelCalls == 0
    ensures InvokePlanner(env, s, c, false).counters.plannerCalls >= c.plannerCalls + 1
  {
    hide Env.Valid, ValidPlan, Plan, AcceptPlan, Text;
    AttemptsGiven(env);
    FirstPlanCalls(env, c);
    var p := Plan(env, c, 1);
    if p.PlanReady? {
      AcceptCountersOnly(env, s, p.plan, p.counters);
    }
  }

  lemma AcceptCountersOnly(env: Env, s: State, plan: TaskPlan, c: Counters)
    ensures AcceptPlan(env, s, plan, c).counters == c
  {
    hide PlanFingerprint, Text, Count;
  }

  /** A failed retrieval asks for the run to be persisted with MEMORY_FAILURE, and is followed by
      the planner node and a call of the planner all the same. */
  lemma FailedRetrievalStillPlans(env: Env)
    requires env.Valid() && env.retrieved.None?
    ensures At(env, 1).state.route == ToPersist && At(env, 1).state.reason == Some(MemoryFailure)
    ensures At(env, 1).node == Planner && At(env, 2).state.counters.plannerCalls >= 1
  {
    hide RunNode, Work, Env.Valid, Text;
    StepsGiven(env);
    FirstConfiguration(env);
    NextOf(env, 0);
    RetrievalFails(env);
    NextOf(env, 1);
    AlwaysSound(env, 1);
    PlannerIsRun(env, At(env, 1).state);
    PlannerNodeCalls(env, At(env, 1).state, Counted(At(env, 1).state.counters));
  }

  lemma StepsGiven(env: Env)
    requires env.Valid()
    ensures 4 <= env.config.maxSteps
  {
  }

  lemma RetrievalFails(env: Env)
    requires env.Valid() && env.retrieved.None?
    ensures var t := RunNode(env, RetrieveMemory, INITIAL);
            && t.route == ToPersist && t.reason == Some(MemoryFailure)
            && t.counters == Counted(NO_COUNTS)
  {
    hide Text, Work;
    WorkOf(env, RetrieveMemory, INITIAL);
  }

  lemma PlannerIsRun(env: Env, s: State)
    requires env.Valid() && PlanValid(s) && s.counters.steps < env.config.maxSteps
    ensures RunNode(env, Planner, s) == InvokePlanner(env, s, Counted(s.counters), false)
  {
    hide InvokePlanner, Work, Env.Valid, PlanValid;
    WorkOf(env, Planner, s);
  }
}
