/** Runs of the default wiring in which a tool forges one of the reviewer's own failure types: one
    task, whose tool reports a permanent failure of that type. One ends
    UNSUPPORTED_COMPLETION_CLAIM, the other is reviewed as missing its completion text. */
module Forgery {
  import opened Options
  import opened Json
  import opened Keys
  import opened Plans
  import opened Memory
  import opened References
  import opened Review
  import opened Scheduler
  import opened Selection
  import opened Graph
  import opened Runs
  import opened Accounting
  import opened AtMostOnce
  import opened Freshness
  import opened Justified
  import opened Outcomes
  import opened Smooth
  import opened SmoothRuns
  import opened Verdicts
  import Ledger

  /** What the tool returns. */
  function Forged(kind: string): Fields {
    [Field("ok", Bool(false)), Field("error", Obj([Field("type", Str(kind))]))]
  }

  /** The evidence it leaves: a permanent failure of that type. */
  predicate Shows(e: ToolEvidence, kind: string) {
    !e.ok && !e.retryable && !e.ambiguous && e.failureType == Some(kind)
  }

  /** A plan of one task without references, for a known tool that answers with the forgery. */
  ghost predicate Forging(env: Env, plan: TaskPlan, kind: string) {
    && Wired(env) && DefaultText(env) && env.writeOk && env.config.maxSteps >= 5
    && Obtains(env, plan) && Verdict(plan.tasks) == None
    && |plan.tasks| == 1 && plan.tasks[0].call.Some? && plan.tasks[0].call.value.name in env.toolNames
    && Resolve(Obj(plan.tasks[0].call.value.arguments), []).Some?
    && env.tools(0) == Returned(Forged(kind))
  }

  lemma ForgedEvidence(task: PlanTask, tool: string, kind: string)
    ensures Shows(EvidenceOf(task, tool, Forged(kind)), kind)
  {
    var error := [Field("type", Str(kind))];
    assert Lookup(Forged(kind), "ok") == Some(Bool(false));
    assert Lookup(Forged(kind), "error") == Some(Obj(error));
    assert Lookup(error, "type") == Some(Str(kind));
    assert Lookup(error, "retryable") == None && Lookup(error, "ambiguous") == None;
  }

  lemma FirstAdoption(env: Env, plan: TaskPlan, kind: string)
    requires Forging(env, plan, kind)
    ensures At(env, 2).node == SchedulerNode && At(env, 2).state.plan == Some(plan)
  {
    hide At, Work, Env.Valid, Env.FreshPlans, Verdict, PlanValid, DefaultText, Forged, Resolve;
    StepsSuffice(env);
    PlannerNodeInRun(env);
    NextIsWork(env, 1);
    WorkOf(env, Planner, At(env, 1).state);
    FirstPlanning(env, plan, At(env, 1).state, Counted(At(env, 1).state.counters));
  }

  /** At the third node the only task is current, and nothing has run. */
  lemma FirstExecution(env: Env, plan: TaskPlan, kind: string)
    requires Forging(env, plan, kind)
    ensures At(env, 3).node == ExecutorNode
    ensures var s := At(env, 3).state;
            && s.plan.Some? && SameTasks(plan.tasks, s.plan.value.tasks) && AtTask(s, 0)
            && s.memory.evidence == [] && s.trace == [] && s.counters.toolCalls == 0
  {
    hide At, Work, Env.Valid, Env.FreshPlans, Verdict, DefaultText, Forged, Resolve, Schedule, SameTasks,
         ValidTask, Ids;
    FirstAdoption(env, plan, kind);
    NodesAreSteps(env, 2);
    NodesAreSteps(env, 3);
    SchedulerAlwaysServes(env, 2);
    NextIsWork(env, 2);
    AlwaysSound(env, 2);
    AlwaysSound(env, 3);
    var s := At(env, 2).state;
    WorkOf(env, SchedulerNode, s);
    ScheduleKeeps(s, Counted(s.counters));
    var t := At(env, 3).state;
    AlwaysTallied(env, 3);
    SameLength(plan.tasks, t.plan.value.tasks);
    OnlyTask(t);
  }

  lemma OnlyTask(s: State)
    requires Placed(s) && |s.plan.value.tasks| == 1
    ensures AtTask(s, 0)
  {
  }

  /** The call is made, and leaves the forgery as the last evidence. */
  lemma ForgeryRuns(env: Env, plan: TaskPlan, kind: string, s: State, c: Counters)
    requires Forging(env, plan, kind) && env.config.Valid() && Once(env.config, s) && c.toolCalls == 0
    requires s.plan.Some? && SameTasks(plan.tasks, s.plan.value.tasks) && AtTask(s, 0)
    requires s.plan.value.tasks[0].attempts == 0
    requires s.memory.evidence == [] && s.trace == []
    ensures var t := ExecuteCurrent(env, s, c);
            t.route == ToReviewer && |t.memory.evidence| == 1 && Shows(t.memory.evidence[0], kind)
  {
    hide Env.Valid, Env.FreshPlans, Verdict, DefaultText, Forged, Resolve, CanonicalCall, EvidenceOf, Shows;
    var task := s.plan.value.tasks[0];
    assert SameTask(plan.tasks[0], task);
    var call := task.call.value;
    ForgedEvidence(task.(attempts := task.attempts + 1, status := Running), call.name, kind);
    var arguments := Resolve(Obj(call.arguments), []).value;
    NothingStored(env, s, CanonicalCall(call.name, arguments));
    assert IndexOf(s.plan.value.tasks, s.current.value) == Some(0);
  }

  lemma NothingStored(env: Env, s: State, key: string)
    requires Once(env.config, s) && s.trace == []
    ensures Count(s.taskFingerprints, key) == 0 && key !in s.sideEffects
  {
  }

  /** The run comes to the reviewer with the forgery as its only evidence, and persists next. */
  lemma ForgeryIsReviewed(env: Env, plan: TaskPlan, kind: string)
    requires Forging(env, plan, kind) && kind != ""
    ensures At(env, 5).node == PersistMemory
    ensures var s := At(env, 5).state;
            && |s.memory.evidence| == 1 && Shows(s.memory.evidence[0], kind)
            && |s.memory.reviews| == 1 && s.memory.reviews[0].decision == Fail
            && s.memory.reviews[0].failureType == Some(kind)
            && s.reason == Some(FailReason(s.memory.reviews[0]))
  {
    hide At, Work, Env.Valid, Env.FreshPlans, Verdict, DefaultText, Forged, Resolve, ExecuteCurrent,
         ReviewCurrent, Once, SameTasks, Supported, Shows, FailReason, EvidenceReview;
    FirstExecution(env, plan, kind);
    var s := At(env, 3).state;
    AttemptIsFirst(env, 3, 0);
    AlwaysOnce(env, 3);
    NextIsWork(env, 3);
    WorkOf(env, ExecutorNode, s);
    BoundsOf(env);
    ForgeryRuns(env, plan, kind, s, Counted(s.counters));
    var t := At(env, 4).state;
    NextIsWork(env, 4);
    WorkOf(env, ReviewerNode, t);
    AlwaysSupported(env, 4);
    ReviewsKeepPace(env, 4);
    ForgeryFails(env, t, Counted(t.counters), kind);
  }

  /** A review is due, and it is the first. */
  lemma ReviewsKeepPace(env: Env, k: nat)
    requires env.Valid()
    ensures At(env, k).node == ReviewerNode ==>
            |At(env, k).state.memory.reviews| + 1 == |At(env, k).state.memory.evidence|
  {
    hide At, Env.Valid, Ledger.Limited, Ledger.Failures, Ledger.Overruled, PlanSound, Placed;
    AlwaysSound(env, k);
    Ledger.AlwaysBalanced(env, k);
  }

  lemma BoundsOf(env: Env)
    requires env.Valid()
    ensures env.config.Valid()
  {
  }

  lemma ForgeryFails(env: Env, s: State, c: Counters, kind: string)
    requires env.reviewer == EvidenceBased && PlanValid(s) && Supported(env, ReviewerNode, s)
    requires |s.memory.evidence| == 1 && Shows(s.memory.evidence[0], kind) && kind != "" && s.memory.reviews == []
    ensures var t := ReviewCurrent(env, s, c);
            && t.route == ToPersist && t.memory.evidence == s.memory.evidence
            && |t.memory.reviews| == 1 && t.memory.reviews[0].decision == Fail
            && t.memory.reviews[0].failureType == Some(kind) && t.reason == Some(FailReason(t.memory.reviews[0]))
  {
    hide ReviewCurrent, ValidPlan, HasUnsupportedClaim, AllCompleted, Backed, IndexOf, FailReason,
         ActOnReview, EvidenceReview;
    var i := JustRanPlace(s);
    var tasks, memory := s.plan.value.tasks, s.memory.(currentPlan := s.plan);
    var candidate := Candidate(env, tasks, memory);
    ReviewIsAdded(env, s, c, i);
    FailureIsPassedOn(tasks, tasks[i], s.memory.evidence, candidate, kind);
    ReviewIsActedOn(env, s, c, i);
  }

  lemma FailureIsPassedOn(tasks: seq<PlanTask>, current: PlanTask, evidence: seq<ToolEvidence>,
                          candidate: Option<string>, kind: string)
    requires current.status == Failed && current.failureReason == Some(kind) && kind != ""
    requires |evidence| == 1 && Shows(evidence[0], kind)
    ensures var r := EvidenceReview(tasks, current, evidence, candidate);
            r.decision == Fail && r.failureType == Some(kind)
  {
    hide AllCompleted, HasUnsupportedClaim;
  }

  lemma ReviewIsActedOn(env: Env, s: State, c: Counters, i: nat)
    requires env.reviewer == EvidenceBased && s.plan.Some? && s.current.Some?
    requires IndexOf(s.plan.value.tasks, s.current.value) == Some(i)
    ensures var t, tasks := ReviewCurrent(env, s, c), s.plan.value.tasks;
            var r := EvidenceReview(tasks, tasks[i], s.memory.evidence,
                                    Candidate(env, tasks, s.memory.(currentPlan := s.plan)));
            r.decision == Fail ==> t.route == ToPersist && t.reason == Some(FailReason(r))
  {
    hide IndexOf, EvidenceReview, AllCompleted, FailReason;
  }

  /** So the claim that default wiring never ends this way is false of the code. */
  lemma ForgedFailureEndsDenied(env: Env, plan: TaskPlan)
    requires Forging(env, plan, DENIED)
    ensures Final(env).reason == Some(UnsupportedCompletionClaim)
  {
    hide At, Final, Env.Valid, Env.FreshPlans, Verdict, DefaultText, Forged, Resolve, Shows, DENIED;
    NamesAreNames();
    ForgeryIsReviewed(env, plan, DENIED);
    var p := FinalIsPersisted(env);
    assert p == 5;
  }

  /** And so is the claim that a review never speaks of a missing completion text; the run does
      have a text, and ends EXECUTOR_FAILURE. */
  lemma ForgedMissingIsReviewed(env: Env, plan: TaskPlan)
    requires Forging(env, plan, MISSING)
    ensures Final(env).reason == Some(ExecutorFailure)
    ensures |Final(env).memory.reviews| == 1 && Final(env).memory.reviews[0].failureType == Some(MISSING)
  {
    hide At, Final, Env.Valid, Env.FreshPlans, Verdict, DefaultText, Forged, Resolve, Shows, MISSING, DENIED,
         UNSAFE_RETRY;
    NamesAreNames();
    ForgeryIsReviewed(env, plan, MISSING);
    var p := FinalIsPersisted(env);
    assert p == 5;
  }

  lemma NamesAreNames()
    ensures DENIED != "" && MISSING != "" && MISSING != DENIED && MISSING != UNSAFE_RETRY
  {
    assert |MISSING| == 27 && |UNSAFE_RETRY| == 20 && |DENIED| == 28;
  }
}
