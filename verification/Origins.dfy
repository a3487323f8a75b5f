/** Where evidence comes from: each piece is made of a tool's reply, or says why no tool was
    called. So what no reply can make never appears. */
module Origins {
  import opened Options
  import opened Json
  import opened Keys
  import References
  import opened Plans
  import opened Memory
  import opened Graph
  import opened Runs
  import opened Effects
  import opened Accounting

  /** No reply of the tools, and neither failure before a call, makes `bad` evidence. */
  ghost predicate Free(env: Env, bad: ToolEvidence -> bool) {
    && (forall task: PlanTask, tool: string, i: nat :: !bad(EvidenceOf(task, tool, ResultOf(env.tools(i)))))
    && (forall id: string, tool: string :: !bad(ToolEvidence(id, tool, false, [], Some("unknown_tool"), false, false)))
    && (forall id: string, tool: string ::
          !bad(ToolEvidence(id, tool, false, [], Some("invalid_evidence_reference"), false, false)))
  }

  ghost predicate Clear(s: State, bad: ToolEvidence -> bool) {
    forall i | 0 <= i < |s.memory.evidence| :: !bad(s.memory.evidence[i])
  }

  lemma OutcomeIsFree(env: Env, bad: ToolEvidence -> bool, task: PlanTask, evidence: seq<ToolEvidence>, c: Counters,
                      repeated: map<string, nat>, sideEffects: set<string>)
    requires Free(env, bad)
    ensures var o := Execute(env, task, evidence, c, repeated, sideEffects);
            o.Finished? ==> !bad(o.evidence)
  {
    hide References.Resolve, CanonicalCall, EvidenceOf, ResultOf, Count;
  }

  lemma ExecutionStaysClear(env: Env, bad: ToolEvidence -> bool, s: State, c: Counters)
    requires Free(env, bad) && Clear(s, bad)
    ensures Clear(ExecuteCurrent(env, s, c), bad)
  {
    hide Execute, IndexOf, WithTask, Free;
    if s.plan.Some? && s.current.Some? && IndexOf(s.plan.value.tasks, s.current.value).Some? {
      var task := s.plan.value.tasks[IndexOf(s.plan.value.tasks, s.current.value).value];
      OutcomeIsFree(env, bad, task, s.memory.evidence, c, s.taskFingerprints, s.sideEffects);
    }
  }

  lemma OthersAddNoEvidence(env: Env, node: Node, s: State)
    requires env.Valid() && Accounting.Sound(env, Configuration(node, s)) && node != ExecutorNode
    ensures Work(env, node, s, Counted(s.counters)).memory.evidence == s.memory.evidence
  {
    hide Env.Valid, ValidPlan, PlanSound, InvokePlanner, Schedule, ExecuteCurrent, ReviewCurrent, ReflectOnReview, Ids;
    var c := Counted(s.counters);
    match node
    case Planner => PlannerEffect(env, s, c, false);
    case ReplanNode => PlannerEffect(env, s, c, true);
    case SchedulerNode => SchedulerShape(s, c);
    case ReviewerNode =>
      IndexOfMember(s.plan.value.tasks, s.current.value);
      ReviewEffect(env, s, c);
    case ReflectionNode => ReflectEffect(env, s, c);
    case _ =>
  }

  lemma ClearAfterStep(env: Env, bad: ToolEvidence -> bool, k: Configuration)
    requires env.Valid() && Accounting.Sound(env, k) && Free(env, bad) && Clear(k.state, bad)
    ensures Clear(Step(env, k).state, bad)
  {
    hide Env.Valid, ValidPlan, PlanSound, Placed, Accounted, Free, Work, ExecuteCurrent;
    if !Ending(k.node) && k.state.counters.steps < env.config.maxSteps {
      if k.node == ExecutorNode {
        WorkOf(env, ExecutorNode, k.state);
        ExecutionStaysClear(env, bad, k.state, Counted(k.state.counters));
      } else {
        OthersAddNoEvidence(env, k.node, k.state);
      }
    }
  }

  lemma {:induction false} AlwaysClear(env: Env, bad: ToolEvidence -> bool, k: nat)
    requires env.Valid() && Free(env, bad)
    ensures Clear(At(env, k).state, bad)
  {
    hide RunNode, Env.Valid, Free;
    if k > 0 {
      AlwaysClear(env, bad, k - 1);
      AlwaysSound(env, k - 1);
      NextOf(env, k - 1);
      ClearAfterStep(env, bad, At(env, k - 1));
    }
  }
}
