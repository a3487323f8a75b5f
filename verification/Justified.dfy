/** With the evidence reviewer and fresh plans: the scheduler never gets stuck, and a run that
    says "completed" has the evidence for it. */
module Justified {
  import opened Options
  import opened Json
  import opened Plans
  import opened Graphs
  import opened Memory
  import opened Review
  import opened Scheduler
  import opened Selection
  import opened Graph
  import opened Runs
  import opened Effects
  import opened Accounting
  import opened Epochs
  import opened Progress

  ghost predicate Wired(env: Env) {
    env.Valid() && env.FreshPlans() && env.reviewer == EvidenceBased
  }

  /** The completion text is the default one. */
  ghost predicate DefaultText(env: Env) {
    forall m :: env.builder(m) == BuildFinalResponse(m.evidence)
  }

  ghost predicate Useful(e: ToolEvidence) {
    e.ok && e.data != []
  }

  /** Up to `to`, everything executed under the current plan left useful evidence. */
  ghost predicate Backed(s: State, to: int) {
    forall i | s.epoch <= i < to && i < |s.memory.evidence| :: Useful(s.memory.evidence[i])
  }

  /** The task just executed, its evidence last, and all other tasks in good standing. */
  ghost predicate JustRan(s: State, i: nat) {
    && AtTask(s, i)
    && s.epoch < |s.memory.evidence| == |s.memory.executions|
    && var tasks, e := s.plan.value.tasks, s.memory.evidence[|s.memory.evidence| - 1];
       && e.taskId == tasks[i].taskId && tasks[i].call.Some?
       && tasks[i].status == (if e.ok then Completed else Failed)
       && tasks[i].failureReason == e.failureType
       && forall j | 0 <= j < |tasks| && j != i :: Waiting(tasks[j]) || tasks[j].status == Completed
  }

  /** The response is what the completion builder makes of this evidence. */
  ghost predicate Built(env: Env, s: State) {
    exists m: WorkingMemory :: m.evidence == s.memory.evidence && s.response == env.builder(m)
  }

  ghost predicate Supported(env: Env, node: Node, s: State) {
    && s.epoch <= |s.memory.evidence| == |s.memory.executions|
    && (node == SchedulerNode || node == ExecutorNode ==>
          && Backed(s, |s.memory.evidence|)
          && s.plan.Some? && Lively(s.plan.value.tasks) && !AllCompleted(s.plan.value.tasks))
    && (node == ReviewerNode ==> Backed(s, |s.memory.evidence| - 1) && exists i: nat :: JustRan(s, i))
    && (Ending(node) ==> s.reason.Some? && !InertPlan(s.reason.value))
    && (Ending(node) && s.reason == Some(Completion) ==>
          && Backed(s, |s.memory.evidence|)
          && s.plan.Some? && AllCompleted(s.plan.value.tasks)
          && Built(env, s) && !HasUnsupportedClaim(s.response, s.memory.evidence))
  }

  // ---------------------------------------------------------------------
  // The nodes

  lemma FreshIsLively(plan: TaskPlan)
    requires Fresh(plan) && plan.tasks != []
    ensures Lively(plan.tasks) && !AllCompleted(plan.tasks)
  {
    assert plan.tasks[0] in plan.tasks;
  }

  lemma SupportedAfterPlanner(env: Env, node: Node, s: State)
    requires Wired(env) && PlanValid(s) && Supported(env, node, s) && (node == Planner || node == ReplanNode)
    ensures var t := InvokePlanner(env, s, Counted(s.counters), node == ReplanNode);
            Supported(env, Target(t.route), t)
  {
    hide Env.Valid, Env.FreshPlans, InvokePlanner, Verdict, ValidTask, DistinctIds, HasUnsupportedClaim,
         Lively, AllCompleted, SameTasks;
    var t := InvokePlanner(env, s, Counted(s.counters), node == ReplanNode);
    PlannerEffect(env, s, Counted(s.counters), node == ReplanNode);
    if t.route == ToScheduler {
      FreshIsLively(t.plan.value);
    }
  }

  lemma SupportedAfterScheduler(env: Env, s: State, c: Counters)
    requires PlanSound(s) && Supported(env, SchedulerNode, s)
    ensures var t := Schedule(s, c);
            t.route == ToExecutor && Supported(env, ExecutorNode, t)
  {
    hide Schedule, Dispatch, Verdict, ValidTask, HasUnsupportedClaim, Lively, AllCompleted, Choice, Blocking,
         Readying, SameTasks;
    var plan := s.plan.value;
    LivelyPlanIsServed(plan.tasks);
    ScheduleEffect(s, c);
    DispatchEffect(s, c, SettledPlan(plan), Choice(Blocking(plan.tasks)));
  }

  lemma ExecutedJustRan(s: State, i: nat, t: State)
    requires s.plan.Some? && AtTask(s, i) && Lively(s.plan.value.tasks) && Executed(s, i, t)
    requires s.epoch <= |s.memory.evidence| == |s.memory.executions|
    ensures JustRan(t, i)
  {
  }

  lemma SupportedAfterExecutor(env: Env, s: State, c: Counters)
    requires Topological(ExecutorNode, s) && Supported(env, ExecutorNode, s)
    ensures var t := ExecuteCurrent(env, s, c);
            Supported(env, Target(t.route), t)
  {
    hide ExecuteCurrent, InOrder, Reflected, Runnable, ValidTask, HasUnsupportedClaim, Lively, AllCompleted,
         JustRan, SameTasks, Records, Marked;
    PlanOfInOrder(s);
    var i := PreparedPlace(s);
    var t := ExecuteCurrent(env, s, c);
    ExecuteEffect(env, s, c, i);
    if Executed(s, i, t) {
      ExecutedJustRan(s, i, t);
    }
  }

  /** A failure that carries the reviewer's own failure type. */
  predicate SaysUnsupported(failureType: Option<string>) {
    failureType == Some(DENIED)
  }

  /** The reviewer sends the run back to the planner: no usable data, or a failure worth another
      attempt. */
  predicate Inconclusive(e: ToolEvidence) {
    if e.ok then e.data == [] else e.retryable && !(e.ambiguous && e.toolName == "create_support_ticket")
  }

  /** The reviewer's verdict on a task that failed. */
  lemma VerdictOnFailure(tasks: seq<PlanTask>, current: PlanTask, evidence: seq<ToolEvidence>,
                         candidate: Option<string>)
    requires evidence != [] && current.status == Failed && current.failureReason == evidence[|evidence| - 1].failureType
    ensures var r, e := EvidenceReview(tasks, current, evidence, candidate), evidence[|evidence| - 1];
            && (r.decision == Reflect || r.decision == Fail)
            && (!e.ok ==> (r.decision == Reflect <==> Inconclusive(e)))
            && (r.decision == Fail && SaysUnsupported(r.failureType) <==>
                !e.retryable && SaysUnsupported(e.failureType))
  {
    hide HasUnsupportedClaim, AllCompleted;
  }

  /** The reviewer's verdict on a task that completed. */
  lemma VerdictOnSuccess(tasks: seq<PlanTask>, current: PlanTask, evidence: seq<ToolEvidence>,
                         candidate: Option<string>)
    requires evidence != [] && current.call.Some? && current.status == Completed
    requires candidate.Some? <==> AllCompleted(tasks)
    ensures var r, useful := EvidenceReview(tasks, current, evidence, candidate), Useful(evidence[|evidence| - 1]);
            && r.decision != Replan
            && (evidence[|evidence| - 1].ok ==> (r.decision == Reflect <==> Inconclusive(evidence[|evidence| - 1])))
            && (r.decision == Continue <==> useful && !AllCompleted(tasks))
            && (r.decision == Complete <==>
                useful && AllCompleted(tasks) && !HasUnsupportedClaim(candidate.value, evidence))
            && (r.decision == Fail <==> useful && AllCompleted(tasks) && HasUnsupportedClaim(candidate.value, evidence))
  {
    hide HasUnsupportedClaim, AllCompleted;
  }

  lemma DeniedByName(tasks: seq<PlanTask>, current: PlanTask, evidence: seq<ToolEvidence>, candidate: Option<string>)
    requires current.status == Completed && (AllCompleted(tasks) ==> candidate.Some?)
    requires EvidenceReview(tasks, current, evidence, candidate).decision == Fail
    ensures SaysUnsupported(EvidenceReview(tasks, current, evidence, candidate).failureType)
  {
    hide HasUnsupportedClaim, AllCompleted;
  }

  /** The reviewer's verdict on the task just executed, its evidence `e` last. */
  lemma VerdictOnEvidence(tasks: seq<PlanTask>, current: PlanTask, evidence: seq<ToolEvidence>,
                          candidate: Option<string>)
    requires evidence != [] && current.call.Some? && current.failureReason == evidence[|evidence| - 1].failureType
    requires current.status == (if evidence[|evidence| - 1].ok then Completed else Failed)
    requires candidate.Some? <==> AllCompleted(tasks)
    ensures var r, e := EvidenceReview(tasks, current, evidence, candidate), evidence[|evidence| - 1];
            && r.decision != Replan && (r.decision == Reflect <==> Inconclusive(e))
            && (r.decision == Continue <==> Useful(e) && !AllCompleted(tasks))
            && (r.decision == Complete <==>
                Useful(e) && AllCompleted(tasks) && !HasUnsupportedClaim(candidate.value, evidence))
            && (r.decision == Fail && SaysUnsupported(r.failureType) <==>
                  || (Useful(e) && AllCompleted(tasks) && HasUnsupportedClaim(candidate.value, evidence))
                  || (!e.ok && !e.retryable && SaysUnsupported(e.failureType)))
  {
    hide HasUnsupportedClaim, AllCompleted, EvidenceReview, SaysUnsupported, Inconclusive;
    if current.status == Failed {
      VerdictOnFailure(tasks, current, evidence, candidate);
    } else {
      VerdictOnSuccess(tasks, current, evidence, candidate);
      if EvidenceReview(tasks, current, evidence, candidate).decision == Fail {
        DeniedByName(tasks, current, evidence, candidate);
      }
    }
  }

  lemma ReasonOfFailure(review: ReviewResult)
    ensures FailReason(review) == UnsupportedCompletionClaim <==> SaysUnsupported(review.failureType)
    ensures FailReason(review) != Completion && !InertPlan(FailReason(review))
  {
  }

  lemma ActingOn(s: State, current: PlanTask, memory: WorkingMemory, c: Counters, review: ReviewResult,
                 candidate: string)
    ensures var t := ActOnReview(s, current, memory, c, review, candidate);
            && (t.route == ToScheduler <==> review.decision == Continue)
            && (t.route == ToReplan <==> review.decision == Replan)
            && (t.route == ToReflection <==> review.decision == Reflect)
            && (review.decision == Complete ==>
                t.route == ToPersist && t.reason == Some(Completion) && t.response == candidate)
            && (review.decision == Fail ==> t.route == ToPersist && t.reason == Some(FailReason(review)))
  {
    hide FailReason;
  }

  /** What the evidence reviewer makes of the task just executed. */
  lemma EvidenceVerdict(env: Env, s: State, c: Counters, i: nat)
    requires env.reviewer == EvidenceBased && JustRan(s, i) && IndexOf(s.plan.value.tasks, s.current.value) == Some(i)
    ensures var t, tasks, e := ReviewCurrent(env, s, c), s.plan.value.tasks, s.memory.evidence[|s.memory.evidence| - 1];
            var text := env.builder(s.memory.(currentPlan := s.plan));
            && (t.route == ToScheduler <==> Useful(e) && !AllCompleted(tasks))
            && (t.route == ToReflection <==> Inconclusive(e))
            && (t.route == ToPersist && t.reason == Some(Completion) <==>
                  Useful(e) && AllCompleted(tasks) && !HasUnsupportedClaim(text, s.memory.evidence))
            && (t.route == ToPersist && t.reason == Some(Completion) ==> t.response == text)
            && (t.route == ToPersist && t.reason == Some(UnsupportedCompletionClaim) <==>
                  || (Useful(e) && AllCompleted(tasks) && HasUnsupportedClaim(text, s.memory.evidence))
                  || (!e.ok && !e.retryable && SaysUnsupported(e.failureType)))
            && (t.route == ToPersist ==> t.reason.Some? && !InertPlan(t.reason.value))
            && t.route != ToReplan
  {
    hide IndexOf, HasUnsupportedClaim, AllCompleted, EvidenceReview, ActOnReview, FailReason, Useful,
         SaysUnsupported, Inconclusive;
    var tasks, e := s.plan.value.tasks, s.memory.evidence[|s.memory.evidence| - 1];
    var memory := s.memory.(currentPlan := s.plan);
    var asked := c.(reviewerCalls := c.reviewerCalls + 1);
    var candidate := Candidate(env, tasks, memory);
    var review := EvidenceReview(tasks, tasks[i], s.memory.evidence, candidate);
    VerdictOnEvidence(tasks, tasks[i], s.memory.evidence, candidate);
    ReasonOfFailure(review);
    ActingOn(s, tasks[i], memory.(reviews := memory.reviews + [review]), asked, review, candidate.GetOr(""));
    assert ReviewCurrent(env, s, c) ==
           ActOnReview(s, tasks[i], memory.(reviews := memory.reviews + [review]), asked, review, candidate.GetOr(""));
  }

  /** What a run ends for when a failure is not to be tried again. */
  ghost function EndOfFailure(e: ToolEvidence): Termination {
    if e.retryable || e.failureType == Some("unsafe_retry_blocked") then UnsafeRetryBlocked
    else if e.failureType == Some("unsupported_completion_claim") then UnsupportedCompletionClaim
    else ExecutorFailure
  }

  /** The reviewer fails the run for a failure that is neither inconclusive nor worth a retry. */
  lemma FailureVerdict(env: Env, s: State, c: Counters, i: nat)
    requires env.reviewer == EvidenceBased && JustRan(s, i) && IndexOf(s.plan.value.tasks, s.current.value) == Some(i)
    requires var e := s.memory.evidence[|s.memory.evidence| - 1]; !e.ok && !Inconclusive(e)
    ensures var t := ReviewCurrent(env, s, c);
            t.route == ToPersist && t.reason == Some(EndOfFailure(s.memory.evidence[|s.memory.evidence| - 1]))
  {
    hide IndexOf, HasUnsupportedClaim, AllCompleted, ActOnReview;
    var tasks, e := s.plan.value.tasks, s.memory.evidence[|s.memory.evidence| - 1];
    var memory := s.memory.(currentPlan := s.plan);
    var candidate := Candidate(env, tasks, memory);
    var review := EvidenceReview(tasks, tasks[i], s.memory.evidence, candidate);
    FailureNamesItsEnd(tasks, tasks[i], s.memory.evidence, candidate);
    ActingOn(s, tasks[i], memory.(reviews := memory.reviews + [review]), c.(reviewerCalls := c.reviewerCalls + 1),
             review, candidate.GetOr(""));
  }

  lemma FailureNamesItsEnd(tasks: seq<PlanTask>, current: PlanTask, evidence: seq<ToolEvidence>,
                           candidate: Option<string>)
    requires evidence != [] && current.status == Failed && current.failureReason == evidence[|evidence| - 1].failureType
    requires !evidence[|evidence| - 1].ok && !Inconclusive(evidence[|evidence| - 1])
    ensures var r := EvidenceReview(tasks, current, evidence, candidate);
            r.decision == Fail && FailReason(r) == EndOfFailure(evidence[|evidence| - 1])
  {
    hide AllCompleted, HasUnsupportedClaim;
    assert |UNSAFE_RETRY| == 20 && |DENIED| == 28 && |"executor_failure"| == 16;
  }

  lemma BackedKept(s: State, t: State, to: int)
    requires Unmoved(s, t) && t.epoch == s.epoch
    ensures Backed(s, to) <==> Backed(t, to)
  {
  }

  lemma BackedByOneMore(s: State)
    requires Backed(s, |s.memory.evidence| - 1) && s.memory.evidence != []
    ensures Useful(s.memory.evidence[|s.memory.evidence| - 1]) ==> Backed(s, |s.memory.evidence|)
  {
  }

  lemma JustRanPlace(s: State) returns (i: nat)
    requires PlanValid(s) && exists i: nat :: JustRan(s, i)
    ensures JustRan(s, i) && s.plan.Some? && s.current.Some? && IndexOf(s.plan.value.tasks, s.current.value) == Some(i)
  {
    i :| JustRan(s, i);
  }

  lemma SuccessLeavesLively(s: State, i: nat)
    requires JustRan(s, i) && s.memory.evidence[|s.memory.evidence| - 1].ok
    ensures Lively(s.plan.value.tasks)
  {
  }

  lemma SupportedAfterReviewer(env: Env, s: State, c: Counters)
    requires env.reviewer == EvidenceBased && PlanValid(s) && Supported(env, ReviewerNode, s)
    ensures var t := ReviewCurrent(env, s, c);
            Supported(env, Target(t.route), t)
  {
    hide ReviewCurrent, ValidPlan, HasUnsupportedClaim, Lively, AllCompleted, JustRan, SaysUnsupported, Backed, IndexOf;
    var i := JustRanPlace(s);
    var t := ReviewCurrent(env, s, c);
    EvidencePresent(s, i);
    ReviewEffect(env, s, c);
    EvidenceVerdict(env, s, c, i);
    BackedByOneMore(s);
    BackedKept(s, t, |s.memory.evidence|);
    if s.memory.evidence[|s.memory.evidence| - 1].ok {
      SuccessLeavesLively(s, i);
    }
  }

  lemma EvidencePresent(s: State, i: nat)
    requires JustRan(s, i)
    ensures s.plan.Some? && s.current.Some? && s.memory.evidence != []
  {
  }

  lemma SupportedAfterReflection(env: Env, s: State, c: Counters)
    requires Supported(env, ReflectionNode, s) && s.memory.reviews != []
    ensures var t := ReflectOnReview(env, s, c);
            Supported(env, Target(t.route), t)
  {
    hide ReflectOnReview, HasUnsupportedClaim, Lively, AllCompleted, JustRan, Backed, SameTasks;
    ReflectEffect(env, s, c);
  }

  lemma SupportedWhenIdle(env: Env, k: Configuration)
    requires env.Valid() && Accounting.Sound(env, k) && Idle(env, k) && Supported(env, k.node, k.state)
    ensures var n := Step(env, k); Supported(env, n.node, n.state)
  {
    hide Env.Valid, PlanValid, PlanSound, Placed, HasUnsupportedClaim, Lively, AllCompleted, JustRan, Backed,
         Step, Idle;
    IdleStep(env, k);
    BackedKept(k.state, Step(env, k).state, |k.state.memory.evidence|);
  }

  lemma SupportedAfterStep(env: Env, k: Configuration)
    requires Wired(env) && Accounting.Sound(env, k) && Topological(k.node, k.state)
    requires Supported(env, k.node, k.state)
    ensures var n := Step(env, k); Supported(env, n.node, n.state)
  {
    hide Env.Valid, Env.FreshPlans, ValidPlan, PlanSound, Placed, Topological, Supported, Accounted,
         InvokePlanner, Schedule, ExecuteCurrent, ReviewCurrent, ReflectOnReview, Retrieve, Persist,
         OutOfSteps;
    var s, c := k.state, Counted(k.state.counters);
    if Idle(env, k) {
      SupportedWhenIdle(env, k);
    } else {
      match k.node
      case Planner => SupportedAfterPlanner(env, Planner, s);
      case ReplanNode => SupportedAfterPlanner(env, ReplanNode, s);
      case SchedulerNode => SupportedAfterScheduler(env, s, c);
      case ExecutorNode => SupportedAfterExecutor(env, s, c);
      case ReviewerNode => SupportedAfterReviewer(env, s, c);
      case ReflectionNode => SupportedAfterReflection(env, s, c);
      case _ =>
    }
  }

  lemma {:induction false} AlwaysSupported(env: Env, k: nat)
    requires Wired(env)
    ensures Supported(env, At(env, k).node, At(env, k).state)
  {
    hide RunNode, Step, Env.Valid, Env.FreshPlans, Supported, Topological, Accounting.Sound;
    if k > 0 {
      AlwaysSupported(env, k - 1);
      AlwaysSound(env, k - 1);
      AlwaysTopological(env, k - 1);
      NextOf(env, k - 1);
      SupportedAfterStep(env, At(env, k - 1));
    } else {
      NothingSupported(env);
    }
  }

  lemma NothingSupported(env: Env)
    ensures Supported(env, RetrieveMemory, INITIAL)
  {
  }
}
