/** When the default wiring ends with UNSUPPORTED_COMPLETION_CLAIM. Not never: the reviewer
    passes on the failure type a tool reports, and the reviewer node reads that name as its
    own. Exactly then. */
module Denials {
  import opened Options
  import opened Json
  import opened Plans
  import opened Memory
  import opened Review
  import opened Scheduler
  import opened Selection
  import opened Graph
  import opened Answers
  import opened Runs
  import opened Effects
  import opened Accounting
  import opened Epochs
  import opened Justified
  import opened Origins
  import Claims

  /** The last execution failed for good, under the reviewer's own name for a denied claim. */
  ghost predicate LastSays(s: State) {
    s.memory.evidence != [] && Forged(s.memory.evidence[|s.memory.evidence| - 1])
  }

  predicate Forged(e: ToolEvidence) {
    !e.ok && !e.retryable && SaysUnsupported(e.failureType)
  }

  predicate Cut(reason: Option<Termination>) {
    reason == Some(MaxStepsExceeded) || reason == Some(MemoryFailure)
  }

  ghost predicate Denied(node: Node, s: State) {
    && (!Ending(node) && node != ReviewerNode ==> !LastSays(s))
    && (Ending(node) && !Cut(s.reason) ==> (s.reason == Some(UnsupportedCompletionClaim) <==> LastSays(s)))
  }

  lemma DeniedAfterReviewer(env: Env, s: State, c: Counters)
    requires env.reviewer == EvidenceBased && DefaultText(env) && PlanValid(s) && Supported(env, ReviewerNode, s)
    ensures var t := ReviewCurrent(env, s, c);
            Denied(Target(t.route), t)
  {
    hide ReviewCurrent, ValidPlan, HasUnsupportedClaim, BuildFinalResponse, AllCompleted, JustRan,
         SaysUnsupported, Backed, IndexOf;
    var i := JustRanPlace(s);
    EvidencePresent(s, i);
    ReviewEffect(env, s, c);
    EvidenceVerdict(env, s, c, i);
    Claims.BuiltResponseIsSupported(s.memory.evidence);
    assert env.builder(s.memory.(currentPlan := s.plan)) == BuildFinalResponse(s.memory.evidence);
  }

  lemma DeniedAfterOthers(env: Env, node: Node, s: State)
    requires Wired(env) && Accounting.Sound(env, Configuration(node, s))
    requires Topological(node, s) && Supported(env, node, s)
    requires !Ending(node) && node != ReviewerNode && node != RetrieveMemory && !LastSays(s)
    ensures var t := Work(env, node, s, Counted(s.counters));
            Denied(Target(t.route), t)
  {
    hide Env.Valid, Env.FreshPlans, ValidPlan, PlanSound, InOrder, UpToDate, Ids, Supported, Forged, Executed,
         IndexOf, InvokePlanner, Schedule, ExecuteCurrent, ReviewCurrent, ReflectOnReview, Retrieve;
    var c := Counted(s.counters);
    match node
    case Planner => PlannerEffect(env, s, c, false);
    case ReplanNode => PlannerEffect(env, s, c, true);
    case SchedulerNode => SchedulerShape(s, c); SupportedAfterScheduler(env, s, c);
    case ExecutorNode => ExecutorShape(env, s, c); RefusalMovesNothing(env, s, c);
    case ReflectionNode => ReflectEffect(env, s, c);
    case _ =>
  }

  lemma RefusalMovesNothing(env: Env, s: State, c: Counters)
    requires PlanSound(s) && Placed(s)
    ensures var t := ExecuteCurrent(env, s, c);
            t.route == ToPersist ==> Unmoved(s, t)
  {
    hide ExecuteCurrent, Verdict, ValidTask, Ids, IndexOf, SameTasks;
    IndexOfMember(s.plan.value.tasks, s.current.value);
    ExecuteEffect(env, s, c, IndexOf(s.plan.value.tasks, s.current.value).value);
  }

  lemma DeniedWhenIdle(env: Env, k: Configuration)
    requires env.Valid() && Accounting.Sound(env, k) && Idle(env, k) && Denied(k.node, k.state)
    ensures var n := Step(env, k); Denied(n.node, n.state)
  {
    hide Env.Valid, PlanValid, PlanSound, Placed, Step, Forged, Retrieve;
    IdleStep(env, k);
  }

  lemma {:induction false} AlwaysDenied(env: Env, k: nat)
    requires Wired(env) && DefaultText(env)
    ensures Denied(At(env, k).node, At(env, k).state)
  {
    hide RunNode, Env.Valid, Env.FreshPlans, DefaultText, Forged, Topological, Supported, Accounting.Sound;
    if k > 0 {
      AlwaysDenied(env, k - 1);
      AlwaysSound(env, k - 1);
      AlwaysTopological(env, k - 1);
      AlwaysSupported(env, k - 1);
      NextOf(env, k - 1);
      DeniedAfterStep(env, At(env, k - 1));
    }
  }

  lemma DeniedAfterStep(env: Env, k: Configuration)
    requires Wired(env) && DefaultText(env)
    requires Accounting.Sound(env, k) && Topological(k.node, k.state) && Supported(env, k.node, k.state)
    requires Denied(k.node, k.state)
    ensures var n := Step(env, k); Denied(n.node, n.state)
  {
    hide Env.Valid, Env.FreshPlans, DefaultText, ValidPlan, PlanSound, Placed, Topological, Supported,
         Accounted, Forged, InvokePlanner, Schedule, ExecuteCurrent, ReviewCurrent, ReflectOnReview, Retrieve,
         Persist, OutOfSteps;
    if Idle(env, k) {
      DeniedWhenIdle(env, k);
    } else if k.node == ReviewerNode {
      DeniedAfterReviewer(env, k.state, Counted(k.state.counters));
    } else {
      DeniedAfterOthers(env, k.node, k.state);
    }
  }

  /** In the default wiring a run that was not cut short by its step budget or the memory store
      ends with UNSUPPORTED_COMPLETION_CLAIM exactly when its last execution failed for good
      under that very name; never because of the text the run itself built. */
  lemma DenialIsTheToolsWord(env: Env)
    requires Wired(env) && DefaultText(env) && !Cut(Final(env).reason)
    ensures Final(env).reason == Some(UnsupportedCompletionClaim) <==> LastSays(Final(env))
  {
    hide At, Final, Env.Valid, Env.FreshPlans, DefaultText, Forged;
    var p := FinalIsPersisted(env);
    AlwaysDenied(env, p);
    PersistRests(env, At(env, p).state);
  }

  // ---------------------------------------------------------------------
  // Tools that keep to their own names

  /** A permanent failure under the reviewer's name. */
  ghost predicate SaysDenial(reply: ToolReply) {
    exists ambiguous :: FailedWith(reply, "unsupported_completion_claim", false, ambiguous)
  }

  /** No tool reports one. */
  ghost predicate Candid(env: Env) {
    forall i: nat :: !SaysDenial(env.tools(i))
  }

  lemma CandidIsFree(env: Env)
    requires Candid(env)
    ensures Free(env, Forged)
  {
    hide EvidenceOf, ResultOf, FailedWith, Gave;
    assert |DENIED| != |"unknown_tool"| && |DENIED| != |"invalid_evidence_reference"|;
    forall task: PlanTask, tool: string, i: nat ensures !Forged(EvidenceOf(task, tool, ResultOf(env.tools(i)))) {
      EvidenceIsMade(task, tool, env.tools(i));
      assert !SaysDenial(env.tools(i));
    }
  }

  /** With tools that never report such a failure, default wiring never ends so. */
  lemma CandidToolsAreNeverDenied(env: Env)
    requires Wired(env) && DefaultText(env) && Candid(env)
    ensures Final(env).reason != Some(UnsupportedCompletionClaim)
  {
    hide At, Final, Env.Valid, Env.FreshPlans, DefaultText, Candid, Forged, Free;
    var p := FinalIsPersisted(env);
    CandidIsFree(env);
    AlwaysClear(env, Forged, p);
    PersistRests(env, At(env, p).state);
    if !Cut(Final(env).reason) {
      DenialIsTheToolsWord(env);
    }
  }
}
