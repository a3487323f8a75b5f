/** What the evidence reviewer says of each piece of evidence, in every run. */
module Verdicts {
  import opened Options
  import opened Json
  import opened Plans
  import opened Memory
  import opened Review
  import opened Scheduler
  import opened Selection
  import opened Graph
  import opened Runs
  import opened Effects
  import opened Accounting
  import opened Justified
  import opened Claims
  import opened Reflections
  import Ledger

  /** The review of this evidence, field by field: a support ticket that may have been created, a
      failure that may pass, any other failure, a success without data, and a success with data,
      after which the run goes on, is completed, or would claim too much. */
  ghost predicate Judges(r: ReviewResult, e: ToolEvidence, objective: string) {
    if !e.ok && e.retryable && e.ambiguous && e.toolName == "create_support_ticket" then
      r == ReviewResult(false, Fail, Some("unsafe_retry_blocked"),
                        "A non-idempotent side effect has an ambiguous outcome.", [], None)
    else if !e.ok && e.retryable then
      r == ReviewResult(false, Reflect, Some(Given(e.failureType, "tool_failure")),
                        "Retryable executor evidence requires reflection and replanning.", [], Some(Replan))
    else if !e.ok then
      r == ReviewResult(false, Fail, Some(Given(e.failureType, "executor_failure")),
                        "The task failed with a permanent validation, tool, or business error.", [], None)
    else if e.data == [] then
      r == ReviewResult(false, Reflect, Some("insufficient_evidence"),
                        "The executor reported success without usable evidence.", [objective], Some(Replan))
    else
      || r == ReviewResult(false, Continue, None, "The current task is supported; dependency-ready work remains.",
                           [], None)
      || r == ReviewResult(true, Complete, None, "All planned tasks completed and the final claims match evidence.",
                           [], None)
      || r == ReviewResult(false, Fail, Some("unsupported_completion_claim"),
                           "The proposed completion is not supported by business evidence.", [], None)
  }

  lemma ReviewJudges(tasks: seq<PlanTask>, current: PlanTask, evidence: seq<ToolEvidence>, candidate: Option<string>)
    requires evidence != [] && current.call.Some? && current.failureReason == evidence[|evidence| - 1].failureType
    requires current.status == (if evidence[|evidence| - 1].ok then Completed else Failed)
    requires candidate.Some? <==> AllCompleted(tasks)
    ensures Judges(EvidenceReview(tasks, current, evidence, candidate), evidence[|evidence| - 1], current.objective)
  {
    hide HasUnsupportedClaim, AllCompleted;
  }

  /** After a success with data the run goes on while a task is not completed; then the text decides,
      which may claim no refund but the last one decided, and no ticket but an open one. */
  ghost predicate Weighs(r: ReviewResult, tasks: seq<PlanTask>, evidence: seq<ToolEvidence>, text: string) {
    var tooMuch := || (ClaimsRefund(text) && !Decided(evidence, "approved"))
                   || (ClaimsTicket(text) && !TicketIsOpen(evidence));
    evidence != [] && evidence[|evidence| - 1].ok && evidence[|evidence| - 1].data != [] ==>
      r.decision == if exists i :: 0 <= i < |tasks| && tasks[i].status != Completed then Continue
                    else if tooMuch then Fail else Complete
  }

  lemma ReviewWeighs(tasks: seq<PlanTask>, current: PlanTask, evidence: seq<ToolEvidence>, text: string,
                     candidate: Option<string>)
    requires evidence != [] && current.status == (if evidence[|evidence| - 1].ok then Completed else Failed)
    requires candidate == if AllCompleted(tasks) then Some(text) else None
    ensures Weighs(EvidenceReview(tasks, current, evidence, candidate), tasks, evidence, text)
  {
    hide HasUnsupportedClaim, ClaimsRefund, ClaimsTicket, Decided, TicketIsOpen, Or;
    ClaimsAreChecked(text, evidence);
    CompletedByPlace(tasks);
  }

  /** The reviewer asked by itself, about a task that names no tool: no evidence is missed; with a task
      still open it goes on, with no text for completion it says so, and else the text decides. */
  lemma ToolessReview(tasks: seq<PlanTask>, current: PlanTask, evidence: seq<ToolEvidence>, candidate: Option<string>)
    requires current.call.None? && current.status != Failed
    ensures var r := EvidenceReview(tasks, current, evidence, candidate);
            var open := exists i :: 0 <= i < |tasks| && tasks[i].status != Completed;
            && (r.decision == Continue <==> open)
            && (!open && candidate.None? <==>
                  r == ReviewResult(false, Fail, Some("missing_completion_response"),
                                    "No candidate completion was available for final review.", [], None))
            && (r.decision == Complete <==> !open && candidate.Some? && !HasUnsupportedClaim(candidate.value, evidence))
  {
    hide HasUnsupportedClaim, AllCompleted;
    CompletedByPlace(tasks);
    assert |DENIED| != |MISSING|;
  }

  lemma CompletedByPlace(tasks: seq<PlanTask>)
    ensures AllCompleted(tasks) <==> !exists i :: 0 <= i < |tasks| && tasks[i].status != Completed
  {
  }

  lemma ReviewAdded(s: State, t: State, objective: string)
    requires Judged(s) && |s.memory.reviews| + 1 == |s.memory.evidence| && t.memory.evidence == s.memory.evidence
    requires |t.memory.reviews| == |s.memory.evidence| && t.memory.reviews[..|s.memory.reviews|] == s.memory.reviews
    requires Judges(t.memory.reviews[|s.memory.reviews|], s.memory.evidence[|s.memory.reviews|], objective)
    ensures Judged(t)
  {
    hide Judges;
    var last := |s.memory.reviews|;
    forall i: nat | i < |t.memory.reviews| ensures JudgedAt(t, i) {
      if i < |s.memory.reviews| {
        assert JudgedAt(s, i);
        assert t.memory.reviews[..last][i] == s.memory.reviews[i];
      }
    }
  }

  ghost predicate Judged(s: State) {
    && |s.memory.reviews| <= |s.memory.evidence|
    && forall i: nat | i < |s.memory.reviews| :: JudgedAt(s, i)
  }

  ghost predicate JudgedAt(s: State, i: nat)
    requires i < |s.memory.reviews| && i < |s.memory.evidence|
  {
    exists objective :: Judges(s.memory.reviews[i], s.memory.evidence[i], objective)
  }

  /** Evidence and reviews grew at most at their ends, the reviews not at all. */
  ghost predicate Unreviewed(s: State, t: State) {
    t.memory.reviews == s.memory.reviews && s.memory.evidence <= t.memory.evidence
  }

  lemma UnreviewedStaysJudged(s: State, t: State)
    requires Judged(s) && Unreviewed(s, t)
    ensures Judged(t)
  {
    hide Judges;
    forall i: nat | i < |t.memory.reviews| ensures JudgedAt(t, i) {
      assert JudgedAt(s, i);
    }
  }

  lemma ExecutionIsUnreviewed(env: Env, s: State, c: Counters)
    requires PlanSound(s) && Placed(s)
    ensures Unreviewed(s, ExecuteCurrent(env, s, c))
  {
    hide ExecuteCurrent, Verdict, ValidTask, Ids, IndexOf, SameTasks;
    IndexOfMember(s.plan.value.tasks, s.current.value);
    ExecuteEffect(env, s, c, IndexOf(s.plan.value.tasks, s.current.value).value);
  }

  lemma ReflectionIsUnreviewed(env: Env, s: State, c: Counters)
    ensures Unreviewed(s, ReflectOnReview(env, s, c))
  {
  }

  lemma OthersAreUnreviewed(env: Env, node: Node, s: State)
    requires env.Valid() && Accounting.Sound(env, Configuration(node, s)) && node != ReviewerNode
    ensures Unreviewed(s, Work(env, node, s, Counted(s.counters)))
  {
    hide Env.Valid, ValidPlan, PlanSound, InvokePlanner, Schedule, ExecuteCurrent, ReviewCurrent,
         ReflectOnReview, Retrieve, Ids;
    var c := Counted(s.counters);
    match node
    case RetrieveMemory => RetrieveRests(env, s, c);
    case Planner => PlannerEffect(env, s, c, false);
    case ReplanNode => PlannerEffect(env, s, c, true);
    case SchedulerNode => SchedulerShape(s, c); Ledger.SchedulerRecords(s, c);
    case ExecutorNode => ExecutionIsUnreviewed(env, s, c);
    case ReflectionNode => ReflectionIsUnreviewed(env, s, c);
    case _ =>
  }

  /** The review the evidence reviewer adds. */
  lemma ReviewIsAdded(env: Env, s: State, c: Counters, i: nat)
    requires env.reviewer == EvidenceBased && s.plan.Some? && s.current.Some?
    requires IndexOf(s.plan.value.tasks, s.current.value) == Some(i)
    ensures var t, tasks := ReviewCurrent(env, s, c), s.plan.value.tasks;
            && t.memory.evidence == s.memory.evidence
            && t.memory.reviews == s.memory.reviews +
                 [EvidenceReview(tasks, tasks[i], s.memory.evidence,
                                 Candidate(env, tasks, s.memory.(currentPlan := s.plan)))]
  {
    hide IndexOf, EvidenceReview, AllCompleted, FailReason;
  }

  lemma ReviewStaysJudged(env: Env, s: State, c: Counters)
    requires env.reviewer == EvidenceBased && PlanValid(s) && Supported(env, ReviewerNode, s)
    requires Judged(s) && |s.memory.reviews| + 1 == |s.memory.evidence|
    ensures Judged(ReviewCurrent(env, s, c))
  {
    hide ReviewCurrent, ValidPlan, HasUnsupportedClaim, AllCompleted, Backed, IndexOf, EvidenceReview,
         Judges;
    var i := JustRanPlace(s);
    ReviewIsAdded(env, s, c, i);
    var tasks := s.plan.value.tasks;
    var candidate := Candidate(env, tasks, s.memory.(currentPlan := s.plan));
    EvidencePresent(s, i);
    JustRanIsRecorded(s, i);
    ReviewJudges(tasks, tasks[i], s.memory.evidence, candidate);
    ReviewAdded(s, ReviewCurrent(env, s, c), tasks[i].objective);
  }

  lemma JustRanIsRecorded(s: State, i: nat)
    requires JustRan(s, i)
    ensures var task, e := s.plan.value.tasks[i], s.memory.evidence[|s.memory.evidence| - 1];
            && task.call.Some? && task.failureReason == e.failureType
            && task.status == (if e.ok then Completed else Failed)
  {
  }

  lemma JudgedAfterStep(env: Env, k: Configuration)
    requires Wired(env) && Accounting.Sound(env, k) && Supported(env, k.node, k.state) && Judged(k.state)
    requires k.node == ReviewerNode ==> |k.state.memory.reviews| + 1 == |k.state.memory.evidence|
    ensures Judged(Step(env, k).state)
  {
    hide Env.Valid, Env.FreshPlans, ValidPlan, PlanSound, Placed, Accounted, Supported, Judged, Work, Persist,
         OutOfSteps, ReviewCurrent;
    var s := k.state;
    PersistRests(env, s);
    OutOfStepsRests(s);
    if Ending(k.node) || s.counters.steps >= env.config.maxSteps {
      UnreviewedStaysJudged(s, Step(env, k).state);
    } else if k.node == ReviewerNode {
      WorkOf(env, ReviewerNode, s);
      ReviewStaysJudged(env, s, Counted(s.counters));
    } else {
      OthersAreUnreviewed(env, k.node, s);
      UnreviewedStaysJudged(s, Work(env, k.node, s, Counted(s.counters)));
    }
  }

  /** At every moment of every run with the evidence reviewer: each review judges the evidence at its
      place by the rules. */
  lemma {:induction false} AlwaysJudged(env: Env, k: nat)
    requires Wired(env)
    ensures Judged(At(env, k).state)
  {
    hide RunNode, Env.Valid, Env.FreshPlans, Supported, Accounting.Sound, Judges, Ledger.Limited;
    if k > 0 {
      AlwaysJudged(env, k - 1);
      AlwaysSound(env, k - 1);
      AlwaysSupported(env, k - 1);
      Ledger.AlwaysBalanced(env, k - 1);
      EvidenceOfExecutions(env, At(env, k - 1));
      NextOf(env, k - 1);
      JudgedAfterStep(env, At(env, k - 1));
    }
  }

  lemma EvidenceOfExecutions(env: Env, k: Configuration)
    requires Accounting.Sound(env, k)
    ensures |k.state.memory.evidence| == |k.state.memory.executions|
  {
    hide Shaped;
  }
}
