/** What the calls of a run are: the planned calls of the tasks it executed, with the arguments
    their references resolve to. */
module Traces {
  import opened Options
  import opened Json
  import opened Keys
  import JsonFaithful
  import opened Plans
  import opened Memory
  import opened References
  import opened Scheduler
  import opened Selection
  import opened Results
  import opened Graph
  import opened Runs
  import opened Effects
  import opened Accounting
  import opened AtMostOnce
  import opened Origins

  /** The planned call of the task, its references resolved on this evidence. */
  ghost predicate Called(task: PlanTask, evidence: seq<ToolEvidence>, call: Invocation) {
    && task.call.Some? && call.tool == task.call.value.name
    && Replaced(Obj(task.call.value.arguments), call.arguments, evidence)
  }

  /** A failure before any call. */
  predicate Uncalled(e: ToolEvidence) {
    && !e.ok && !e.retryable
    && (e.failureType == Some("unknown_tool") || e.failureType == Some("invalid_evidence_reference"))
  }

  lemma OutcomeCalls(env: Env, task: PlanTask, evidence: seq<ToolEvidence>, c: Counters,
                     repeated: map<string, nat>, sideEffects: set<string>)
    ensures var o := Execute(env, task, evidence, c, repeated, sideEffects);
            o.Finished? ==>
              && task.call.Some? && o.evidence.toolName == task.call.value.name
              && match o.invoked
                 case None => Uncalled(o.evidence)
                 case Some(call) =>
                   && Called(task, evidence, call)
                   && o.evidence == EvidenceOf(task, call.tool, ResultOf(env.tools(c.toolCalls)))
  {
    hide CanonicalCall, Resolve, Replaced, Succeeded, FailureType, Flag, ErrorOf, ResultOf, Count;
    var o := Execute(env, task, evidence, c, repeated, sideEffects);
    if o.Finished? && o.invoked.Some? {
      ResolveReplaces(Obj(task.call.value.arguments), o.invoked.value.arguments, evidence);
    }
  }

  /** What the executor node adds to the trace with the record of task `i`. */
  lemma ExecutionCalls(env: Env, s: State, c: Counters, i: nat)
    requires s.plan.Some? && s.current.Some? && IndexOf(s.plan.value.tasks, s.current.value) == Some(i)
    ensures var t, task := ExecuteCurrent(env, s, c), s.plan.value.tasks[i];
            Executed(s, i, t) ==>
              var e := t.memory.evidence[|s.memory.evidence|];
              && task.call.Some? && e.toolName == task.call.value.name
              && if |t.trace| == |s.trace| then t.trace == s.trace && Uncalled(e)
                 else
                   && |t.trace| == |s.trace| + 1 && t.trace == s.trace + [t.trace[|s.trace|]]
                   && Called(task, s.memory.evidence, t.trace[|s.trace|])
                   && e == EvidenceOf(task, task.call.value.name, ResultOf(env.tools(c.toolCalls)))
  {
    hide Execute, IndexOf, Replaced, EvidenceOf, ResultOf, Records, Marked, Uncalled;
    OutcomeCalls(env, s.plan.value.tasks[i], s.memory.evidence, c, s.taskFingerprints, s.sideEffects);
    var o := Execute(env, s.plan.value.tasks[i], s.memory.evidence, c, s.taskFingerprints, s.sideEffects);
    var t := ExecuteCurrent(env, s, c);
    if Executed(s, i, t) {
      assert o.Finished? && t.memory.evidence[|s.memory.evidence|] == o.evidence;
      assert t.trace == if o.invoked.Some? then s.trace + [o.invoked.value] else s.trace;
    }
  }

  // ---------------------------------------------------------------------
  // The calls of the current plan

  /** The record at place `i` of the history is of a task of the plan, and the call is that task's. */
  ghost predicate CalledFor(tasks: seq<PlanTask>, m: WorkingMemory, i: nat, call: Invocation)
    requires i < |m.executions| && i < |m.evidence|
  {
    exists k | 0 <= k < |tasks| ::
      && tasks[k].taskId == m.executions[i].taskId
      && Called(tasks[k], m.evidence[..i], call) && m.evidence[i].toolName == call.tool
  }

  ghost predicate AllWell(s: State) {
    forall i | s.epoch <= i < |s.memory.evidence| :: s.memory.evidence[i].ok
  }

  /** While every execution under the current plan succeeds, the last calls made are the calls of
      the tasks executed, one for each, in the same order. */
  ghost predicate Matched(s: State) {
    && s.epoch <= |s.memory.executions| == |s.memory.evidence|
    && (s.plan.Some? && AllWell(s) ==>
          && |s.memory.executions| - s.epoch <= |s.trace|
          && forall i: nat | s.epoch <= i < |s.memory.executions| :: CalledAt(s, i))
  }

  /** Counted from the end, the call at the same place as record `i` is the call of its task. */
  ghost predicate CalledAt(s: State, i: nat)
    requires s.plan.Some? && |s.memory.executions| == |s.memory.evidence|
  {
    var j := |s.trace| - |s.memory.executions| + i;
    i < |s.memory.executions| && 0 <= j < |s.trace| && CalledFor(s.plan.value.tasks, s.memory, i, s.trace[j])
  }

  lemma SameTasksCalled(ts: seq<PlanTask>, us: seq<PlanTask>, m: WorkingMemory, i: nat, call: Invocation)
    requires SameTasks(ts, us) && i < |m.executions| && i < |m.evidence| && CalledFor(ts, m, i, call)
    ensures CalledFor(us, m, i, call)
  {
    hide Replaced;
    var k :| && 0 <= k < |ts| && ts[k].taskId == m.executions[i].taskId
             && Called(ts[k], m.evidence[..i], call) && m.evidence[i].toolName == call.tool;
    assert SameTask(ts[k], us[k]);
    assert Called(us[k], m.evidence[..i], call);
  }

  lemma MemoryCalled(tasks: seq<PlanTask>, m: WorkingMemory, n: WorkingMemory, i: nat, call: Invocation)
    requires i < |m.executions| && i < |m.evidence| && CalledFor(tasks, m, i, call)
    requires m.executions <= n.executions && m.evidence <= n.evidence
    ensures CalledFor(tasks, n, i, call)
  {
    hide Called;
    assert n.evidence[..i] == m.evidence[..i];
  }

  /** Nothing was executed, and the plan kept its tasks. */
  lemma UnmovedStaysMatched(s: State, t: State)
    requires Matched(s) && Unmoved(s, t) && t.epoch == s.epoch
    requires t.plan.Some? ==> s.plan.Some? && SameTasks(s.plan.value.tasks, t.plan.value.tasks)
    ensures Matched(t)
  {
    hide CalledFor, SameTasks;
    if t.plan.Some? && AllWell(t) {
      assert AllWell(s);
      forall i: nat | t.epoch <= i < |t.memory.executions|
        ensures CalledAt(t, i)
      {
        assert CalledAt(s, i);
        var call := s.trace[|s.trace| - |s.memory.executions| + i];
        SameTasksCalled(s.plan.value.tasks, t.plan.value.tasks, s.memory, i, call);
        MemoryCalled(t.plan.value.tasks, s.memory, t.memory, i, call);
      }
    }
  }

  lemma AdoptedIsMatched(env: Env, s: State, t: State)
    requires Matched(s) && Adopted(env, s, t)
    ensures Matched(t)
  {
    hide CalledFor, Env.FreshPlans;
  }

  /** One more task was executed. */
  lemma ExecutedStaysMatched(env: Env, s: State, c: Counters, i: nat)
    requires Matched(s) && s.plan.Some? && s.current.Some? && IndexOf(s.plan.value.tasks, s.current.value) == Some(i)
    requires Executed(s, i, ExecuteCurrent(env, s, c))
    ensures Matched(ExecuteCurrent(env, s, c))
  {
    hide ExecuteCurrent, IndexOf, CalledFor, Replaced, EvidenceOf, SameTasks;
    var t := ExecuteCurrent(env, s, c);
    ExecutionCalls(env, s, c, i);
    var last := |s.memory.executions|;
    assert SameTasks(s.plan.value.tasks, t.plan.value.tasks) by { ExecutedKeepsTasks(s, i, t); }
    if AllWell(t) {
      assert AllWell(s) by {
        forall j | s.epoch <= j < |s.memory.evidence| ensures s.memory.evidence[j].ok {
          assert t.memory.evidence[j] == s.memory.evidence[j];
        }
      }
      assert t.memory.evidence[last].ok;
      forall j: nat | t.epoch <= j < |t.memory.executions|
        ensures CalledAt(t, j)
      {
        if j < last {
          assert CalledAt(s, j);
          var call := s.trace[|s.trace| - last + j];
          SameTasksCalled(s.plan.value.tasks, t.plan.value.tasks, s.memory, j, call);
          MemoryCalled(t.plan.value.tasks, s.memory, t.memory, j, call);
        } else {
          NewCall(s, i, t);
        }
      }
    }
  }

  lemma ExecutedKeepsTasks(s: State, i: nat, t: State)
    requires s.plan.Some? && i < |s.plan.value.tasks| && Executed(s, i, t)
    ensures t.plan.Some? && SameTasks(s.plan.value.tasks, t.plan.value.tasks)
  {
  }

  lemma NewCall(s: State, i: nat, t: State)
    requires s.plan.Some? && i < |s.plan.value.tasks| && Executed(s, i, t)
    requires |s.memory.executions| == |s.memory.evidence|
    requires |t.trace| == |s.trace| + 1 && Called(s.plan.value.tasks[i], s.memory.evidence, t.trace[|s.trace|])
    requires t.memory.evidence[|s.memory.evidence|].toolName == t.trace[|s.trace|].tool
    ensures CalledFor(t.plan.value.tasks, t.memory, |s.memory.executions|, t.trace[|s.trace|])
  {
    hide Replaced;
    var task := t.plan.value.tasks[i];
    assert t.memory.evidence[..|s.memory.evidence|] == s.memory.evidence;
    assert Called(task, s.memory.evidence, t.trace[|s.trace|]);
  }

  lemma MatchedAfterStep(env: Env, k: Configuration)
    requires env.Valid() && Accounting.Sound(env, k) && Matched(k.state)
    ensures Matched(Step(env, k).state)
  {
    hide Env.Valid, ValidPlan, Verdict, Accounted, Matched, InvokePlanner, Schedule, ExecuteCurrent,
         ReviewCurrent, ReflectOnReview, Step, Unmoved, Ids, SameTasks, Executed, IndexOf, Adopted;
    var s, n, c := k.state, Step(env, k), Counted(k.state.counters);
    if Idle(env, k) {
      IdleStep(env, k);
      SameTasksReflexive(s);
      UnmovedStaysMatched(s, n.state);
    } else {
      StepWorks(env, k);
      WorkOf(env, k.node, s);
      SameTasksReflexive(s);
      match k.node
      case Planner => PlannerStaysMatched(env, s, c, false);
      case ReplanNode => PlannerStaysMatched(env, s, c, true);
      case SchedulerNode => SchedulerShape(s, c); ScheduleKeeps(s, c); UnmovedStaysMatched(s, n.state);
      case ExecutorNode =>
        IndexOfMember(s.plan.value.tasks, s.current.value);
        var i := IndexOf(s.plan.value.tasks, s.current.value).value;
        ExecuteEffect(env, s, c, i);
        if Executed(s, i, n.state) {
          ExecutedStaysMatched(env, s, c, i);
        } else {
          UnmovedStaysMatched(s, n.state);
        }
      case ReviewerNode =>
        IndexOfMember(s.plan.value.tasks, s.current.value);
        ReviewEffect(env, s, c);
        UnmovedStaysMatched(s, n.state);
      case ReflectionNode => ReflectEffect(env, s, c); UnmovedStaysMatched(s, n.state);
    }
  }

  lemma StepWorks(env: Env, k: Configuration)
    requires env.Valid() && PlanValid(k.state) && !Idle(env, k)
    ensures Step(env, k).state == Work(env, k.node, k.state, Counted(k.state.counters))
  {
    hide Work, Env.Valid, PlanValid;
  }

  lemma PlannerStaysMatched(env: Env, s: State, c: Counters, replan: bool)
    requires env.Valid() && PlanValid(s) && Matched(s)
    ensures Matched(InvokePlanner(env, s, c, replan))
  {
    hide Env.Valid, ValidPlan, Verdict, Matched, InvokePlanner, Adopted, SameTasks;
    PlannerEffect(env, s, c, replan);
    var t := InvokePlanner(env, s, c, replan);
    if t.route == ToPersist {
      UnmovedStaysMatched(s, t);
    } else {
      AdoptedIsMatched(env, s, t);
    }
  }

  /** In every run, at every moment, for every planner and reviewer. */
  lemma {:induction false} AlwaysMatched(env: Env, k: nat)
    requires env.Valid()
    ensures Matched(At(env, k).state)
  {
    hide RunNode, Env.Valid, Accounting.Sound, CalledFor;
    if k > 0 {
      AlwaysMatched(env, k - 1);
      AlwaysSound(env, k - 1);
      NextOf(env, k - 1);
      MatchedAfterStep(env, At(env, k - 1));
    }
  }

  // ---------------------------------------------------------------------
  // Arguments are JSON

  /** Tools answer with JSON. */
  ghost predicate TellsJson(env: Env) {
    forall i: nat | env.tools(i).Returned? :: WellFormed(Obj(env.tools(i).result))
  }

  ghost predicate Malformed(e: ToolEvidence) {
    !WellFormed(Obj(e.data))
  }

  lemma EvidenceIsJson(env: Env)
    requires TellsJson(env)
    ensures Free(env, Malformed)
  {
    hide FailureType, Flag, ErrorOf, RAISED;
    forall task: PlanTask, tool: string, i: nat ensures !Malformed(EvidenceOf(task, tool, ResultOf(env.tools(i)))) {
      var result := ResultOf(env.tools(i));
      if Succeeded(result) {
        assert WellFormed(Obj(result)) by { RaisedIsNoSuccess(); }
      }
    }
  }

  lemma RaisedIsNoSuccess()
    ensures !Succeeded(RAISED)
  {
    assert Lookup(RAISED, "ok") == Some(Bool(false));
  }

  lemma {:induction false} FollowedIsJson(v: Json, path: seq<string>)
    requires WellFormed(v) && Follow(v, path).Some?
    ensures WellFormed(Follow(v, path).value)
  {
    if path != [] {
      FollowedIsJson(Lookup(v.fields, path[0]).value, path[1..]);
    }
  }

  /** Whatever replaces the references of a JSON value by parts of JSON evidence makes JSON. */
  lemma {:induction false} ReplacedIsJson(v: Json, r: Json, evidence: seq<ToolEvidence>)
    requires WellFormed(v) && Replaced(v, r, evidence)
    requires forall i | 0 <= i < |evidence| :: !Malformed(evidence[i])
    ensures WellFormed(r)
  {
    hide Refers, ResolveReference;
    match v
    case Obj(fs) =>
      if |fs| == 1 && fs[0].key == "$ref" {
        ReferenceNames(fs[0].value.s, r, evidence);
        ReferredIsJson(fs[0].value.s, evidence);
      } else {
        forall i | 0 <= i < |fs| ensures WellFormed(r.fields[i].value) {
          ReplacedIsJson(fs[i].value, r.fields[i].value, evidence);
        }
      }
    case Arr(items) =>
      forall i | 0 <= i < |items| ensures WellFormed(r.items[i]) {
        ReplacedIsJson(items[i], r.items[i], evidence);
      }
    case _ =>
  }

  lemma ReferredIsJson(reference: string, evidence: seq<ToolEvidence>)
    requires ResolveReference(reference, evidence).Some?
    requires forall i | 0 <= i < |evidence| :: !Malformed(evidence[i])
    ensures WellFormed(ResolveReference(reference, evidence).value)
  {
    hide Follow, Split, WellFormed;
    var p := Partition(reference).value;
    FollowedIsJson(Obj(evidence[Latest(evidence, p.0).value].data), Split(p.1, '.'));
  }

  ghost predicate JsonTrace(trace: seq<Invocation>) {
    forall i | 0 <= i < |trace| :: WellFormed(trace[i].arguments)
  }

  lemma CalledIsJson(task: PlanTask, evidence: seq<ToolEvidence>, call: Invocation)
    requires ValidTask(task) && Called(task, evidence, call)
    requires forall i | 0 <= i < |evidence| :: !Malformed(evidence[i])
    ensures WellFormed(call.arguments)
  {
    hide Replaced, WellFormed, Malformed;
    ReplacedIsJson(Obj(task.call.value.arguments), call.arguments, evidence);
  }

  lemma JsonAfterExecution(env: Env, s: State, c: Counters)
    requires PlanSound(s) && Placed(s) && JsonTrace(s.trace) && Clear(s, Malformed)
    ensures JsonTrace(ExecuteCurrent(env, s, c).trace)
  {
    hide ExecuteCurrent, Verdict, ValidTask, Ids, IndexOf, SameTasks, Called, WellFormed, Malformed, EvidenceOf;
    IndexOfMember(s.plan.value.tasks, s.current.value);
    var i := IndexOf(s.plan.value.tasks, s.current.value).value;
    ExecuteEffect(env, s, c, i);
    ExecutionCalls(env, s, c, i);
    var t := ExecuteCurrent(env, s, c);
    if |t.trace| != |s.trace| {
      CalledIsJson(s.plan.value.tasks[i], s.memory.evidence, t.trace[|s.trace|]);
    }
  }

  /** When the tools answer with JSON, every call of every run has JSON arguments. */
  lemma {:induction false} AlwaysJson(env: Env, k: nat)
    requires env.Valid() && TellsJson(env)
    ensures JsonTrace(At(env, k).state.trace)
  {
    hide RunNode, Work, Step, Env.Valid, TellsJson, WellFormed, Malformed, ExecuteCurrent, Verdict, PlanValid,
         JsonTrace;
    if k > 0 {
      AlwaysJson(env, k - 1);
      AlwaysSound(env, k - 1);
      NextOf(env, k - 1);
      EvidenceIsJson(env);
      AlwaysClear(env, Malformed, k - 1);
      JsonAfterStep(env, At(env, k - 1));
    } else {
      NoCalls();
    }
  }

  lemma NoCalls()
    ensures JsonTrace(INITIAL.trace)
  {
  }

  lemma JsonAfterStep(env: Env, k: Configuration)
    requires env.Valid() && Accounting.Sound(env, k) && Clear(k.state, Malformed) && JsonTrace(k.state.trace)
    ensures JsonTrace(Step(env, k).state.trace)
  {
    hide Env.Valid, ValidPlan, PlanSound, Placed, Accounted, Work, JsonTrace, Malformed, ExecuteCurrent, Step;
    if Idle(env, k) {
      IdleStep(env, k);
    } else {
      StepWorks(env, k);
      if k.node == ExecutorNode {
        WorkOf(env, ExecutorNode, k.state);
        JsonAfterExecution(env, k.state, Counted(k.state.counters));
      } else {
        OthersDoNotInvoke(env, k.node, k.state);
      }
    }
  }

  // ---------------------------------------------------------------------
  // Side effects

  lemma SameCallSameKey(tool: string, a: Json, b: Json)
    requires WellFormed(a) && WellFormed(b)
    ensures Same(a, b) ==> CanonicalCall(tool, a) == CanonicalCall(tool, b)
  {
    JsonFaithful.DumpsFaithful(a, b, false);
  }

  /** No unrepeatable side effect is made twice with equal arguments, in the whole run, across
      every replan, retry and review. */
  lemma SideEffectsAtMostOnce(env: Env, k: nat, i: nat, j: nat)
    requires env.Valid() && TellsJson(env)
    ensures var trace := At(env, k).state.trace;
            i < j < |trace| && trace[i].tool == trace[j].tool && Unrepeatable(env.config, trace[j].tool) ==>
              !Same(trace[i].arguments, trace[j].arguments)
  {
    hide At, Env.Valid, CanonicalCall, TellsJson, WellFormed, Same;
    AlwaysOnce(env, k);
    AlwaysJson(env, k);
    var trace := At(env, k).state.trace;
    if i < j < |trace| {
      SameCallSameKey(trace[i].tool, trace[i].arguments, trace[j].arguments);
    }
  }
}
