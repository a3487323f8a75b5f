/** The executor node by its rules: which task is refused, which fails before a call, which calls
    its tool, and what each leaves behind. */
module Execution {
  import opened Options
  import opened Json
  import opened Keys
  import opened Plans
  import opened Memory
  import opened References
  import opened Notices
  import Results
  import opened Graph
  import opened Runs
  import opened Accounting
  import opened AtMostOnce
  import opened Answers

  /** The run is about to persist for this reason, with this sentence, and nothing was executed. */
  ghost predicate Refuses(s: State, c: Counters, t: State, reason: Termination, response: string) {
    && t.route == ToPersist && t.reason == Some(reason) && t.response == response
    && t.counters == c && t.memory == s.memory && t.trace == s.trace
  }

  /** Task `i` was executed and left this evidence. */
  ghost predicate Leaves(s: State, c: Counters, i: nat, e: ToolEvidence, t: State)
    requires s.plan.Some? && i < |s.plan.value.tasks|
  {
    var task := s.plan.value.tasks[i];
    var status := if e.ok then Completed else Failed;
    && t.route == ToReviewer && t.reason == s.reason
    && t.memory.evidence == s.memory.evidence + [e] && e.taskId == task.taskId
    && t.memory.executions == s.memory.executions +
         [TaskExecution(task.taskId, status, task.attempts + 1, e.toolName, e.failureType)]
    && t.plan.Some? && t.memory.currentPlan == t.plan
    && t.plan.value.tasks == s.plan.value.tasks[
         i := task.(status := status, attempts := task.attempts + 1, failureReason := e.failureType)]
    && t.counters.failures == c.failures + (if e.ok then 0 else 1)
  }

  /** A task that fails before its tool is called. */
  ghost predicate FailsBefore(s: State, c: Counters, i: nat, tool: string, kind: string, t: State)
    requires s.plan.Some? && i < |s.plan.value.tasks|
  {
    && t.trace == s.trace && t.counters.toolCalls == c.toolCalls
    && Leaves(s, c, i, ToolEvidence(s.plan.value.tasks[i].taskId, tool, false, [], Some(kind), false, false), t)
  }

  /** A call with this key was made, of a tool with side effects. */
  ghost predicate EffectMade(config: Config, trace: seq<Invocation>, key: string) {
    exists j :: 0 <= j < |trace| && trace[j].tool in config.sideEffecting && trace[j].key == key
  }

  /** The task's tool and arguments are settled: the call may come too often, repeat an effect, or be
      made, and then the evidence is what the tool replies. */
  ghost predicate Calls(env: Env, s: State, c: Counters, i: nat, tool: string, arguments: Json, t: State)
    requires s.plan.Some? && i < |s.plan.value.tasks|
  {
    var key := CanonicalCall(tool, arguments);
    if Occurrences(s.trace, key) >= env.config.repeatedTaskLimit then
      Refuses(s, c, t, RepeatedTask, "Repeated task execution limit was reached")
    else if tool in env.config.sideEffecting && tool !in env.config.idempotent
            && EffectMade(env.config, s.trace, key) then
      Refuses(s, c, t, UnsafeRetryBlocked, "Replay of a non-idempotent side effect was blocked")
    else
      && t.trace == s.trace + [Invocation(tool, arguments, key)] && t.counters.toolCalls == c.toolCalls + 1
      && exists e :: Leaves(s, c, i, e, t) && MadeOf(e, env.tools(|s.trace|)) && e.toolName == tool
  }

  /** The rules, in the order they are asked. */
  ghost predicate ByTheRules(env: Env, s: State, c: Counters, i: nat, t: State)
    requires s.plan.Some? && i < |s.plan.value.tasks|
  {
    var task := s.plan.value.tasks[i];
    if task.attempts >= env.config.maxTaskAttempts then
      Refuses(s, c, t, RepeatedTask, "Task attempt budget was exhausted.")
    else
      match task.call
      case None => Refuses(s, c, t, InvalidPlan, "The task has no registered executable handler")
      case Some(call) =>
        if call.name !in env.toolNames then FailsBefore(s, c, i, call.name, "unknown_tool", t)
        else if |s.trace| >= env.config.maxToolCalls then
          Refuses(s, c, t, ToolCallBudgetExhausted, "Tool-call budget was exhausted before the next task execution")
        else if forall r :: !Replaced(Obj(call.arguments), r, s.memory.evidence) then
          FailsBefore(s, c, i, call.name, "invalid_evidence_reference", t)
        else
          exists r :: Replaced(Obj(call.arguments), r, s.memory.evidence) && Calls(env, s, c, i, call.name, r, t)
  }

  ghost function OutcomeOf(env: Env, s: State, c: Counters, i: nat): Outcome
    requires s.plan.Some? && i < |s.plan.value.tasks|
  {
    Execute(env, s.plan.value.tasks[i], s.memory.evidence, c, s.taskFingerprints, s.sideEffects)
  }

  /** What the executor node makes of the agent's outcome. */
  lemma OutcomeIsRecorded(env: Env, s: State, c: Counters, i: nat)
    requires s.plan.Some? && s.current.Some? && IndexOf(s.plan.value.tasks, s.current.value) == Some(i)
    requires s.plan.value.tasks[i].attempts < env.config.maxTaskAttempts
    ensures var t := ExecuteCurrent(env, s, c);
            match OutcomeOf(env, s, c, i)
            case Refused(_, reason, message) => Refuses(s, c, t, reason, message)
            case Finished(task, e, x, d, _, _, invoked) =>
              && t.trace == (if invoked.Some? then s.trace + [invoked.value] else s.trace)
              && t.counters.toolCalls == d.toolCalls && Leaves(s, c, i, e, t)
  {
    hide IndexOf, Execute;
    OutcomeIsShaped(env, s, c, i);
  }

  lemma OutcomeIsShaped(env: Env, s: State, c: Counters, i: nat)
    requires s.plan.Some? && i < |s.plan.value.tasks|
    ensures var task, o := s.plan.value.tasks[i], OutcomeOf(env, s, c, i);
            o.Finished? ==>
              var e, status := o.evidence, if o.evidence.ok then Completed else Failed;
              && e.taskId == task.taskId
              && o.execution == TaskExecution(task.taskId, status, task.attempts + 1, e.toolName, e.failureType)
              && o.task == task.(status := status, attempts := task.attempts + 1, failureReason := e.failureType)
              && (e.ok ==> o.counters.failures == c.failures)
  {
    hide Resolve, CanonicalCall, Graph.Succeeded, Results.FailureType, Results.Flag, ErrorOf, ResultOf, Count, Text;
  }

  lemma FailsByTheRules(env: Env, s: State, c: Counters, i: nat)
    requires s.plan.Some? && s.current.Some? && IndexOf(s.plan.value.tasks, s.current.value) == Some(i)
    requires s.plan.value.tasks[i].attempts < env.config.maxTaskAttempts && s.plan.value.tasks[i].call.Some?
    ensures var t, call := ExecuteCurrent(env, s, c), s.plan.value.tasks[i].call.value;
            && (call.name !in env.toolNames ==> FailsBefore(s, c, i, call.name, "unknown_tool", t))
            && (call.name in env.toolNames && c.toolCalls >= env.config.maxToolCalls ==>
                  Refuses(s, c, t, ToolCallBudgetExhausted,
                          "Tool-call budget was exhausted before the next task execution"))
            && (call.name in env.toolNames && c.toolCalls < env.config.maxToolCalls
                && Resolve(Obj(call.arguments), s.memory.evidence).None? ==>
                  FailsBefore(s, c, i, call.name, "invalid_evidence_reference", t))
  {
    hide IndexOf, Resolve, Invoke, ExecuteCurrent, Leaves, Refuses;
    OutcomeIsRecorded(env, s, c, i);
  }

  lemma CallsByTheRules(env: Env, s: State, c: Counters, i: nat, arguments: Json)
    requires s.plan.Some? && s.current.Some? && IndexOf(s.plan.value.tasks, s.current.value) == Some(i)
    requires var task := s.plan.value.tasks[i];
             && task.attempts < env.config.maxTaskAttempts && task.call.Some? && task.call.value.name in env.toolNames
             && c.toolCalls == |s.trace| < env.config.maxToolCalls
             && Resolve(Obj(task.call.value.arguments), s.memory.evidence) == Some(arguments)
    requires Once(env.config, s)
    ensures Calls(env, s, c, i, s.plan.value.tasks[i].call.value.name, arguments, ExecuteCurrent(env, s, c))
  {
    hide IndexOf, Resolve, CanonicalCall, EvidenceOf, ResultOf, Occurrences, MadeOf, ExecuteCurrent, Leaves, Refuses,
         Count, EffectMade, Once;
    var task := s.plan.value.tasks[i];
    var tool := task.call.value.name;
    EvidenceIsMade(task.(attempts := task.attempts + 1, status := Running), tool, env.tools(c.toolCalls));
    EffectsAreStored(env.config, s, CanonicalCall(tool, arguments));
    OutcomeIsRecorded(env, s, c, i);
  }

  lemma EffectsAreStored(config: Config, s: State, key: string)
    requires Once(config, s)
    ensures key in s.sideEffects <==> EffectMade(config, s.trace, key)
    ensures Count(s.taskFingerprints, key) == Occurrences(s.trace, key)
  {
    hide Occurrences, CanonicalCall;
  }

  /** The executor node follows the rules. */
  lemma ExecutionByTheRules(env: Env, s: State, c: Counters, i: nat)
    requires s.plan.Some? && s.current.Some? && IndexOf(s.plan.value.tasks, s.current.value) == Some(i)
    requires Once(env.config, s) && c.toolCalls == |s.trace|
    ensures ByTheRules(env, s, c, i, ExecuteCurrent(env, s, c))
  {
    hide Resolve, Replaced, Calls, FailsBefore, Once, Invoke;
    var task := s.plan.value.tasks[i];
    if task.attempts < env.config.maxTaskAttempts && task.call.Some? {
      var call := task.call.value;
      FailsByTheRules(env, s, c, i);
      forall r
        ensures Replaced(Obj(call.arguments), r, s.memory.evidence) <==>
                Resolve(Obj(call.arguments), s.memory.evidence) == Some(r)
      {
        ResolveReplaces(Obj(call.arguments), r, s.memory.evidence);
      }
      if call.name in env.toolNames && c.toolCalls < env.config.maxToolCalls
         && Resolve(Obj(call.arguments), s.memory.evidence).Some? {
        CallsByTheRules(env, s, c, i, Resolve(Obj(call.arguments), s.memory.evidence).value);
      }
    }
  }

  /** In every run, for every planner and reviewer. */
  lemma EveryExecutionByTheRules(env: Env, k: nat, i: nat)
    requires env.Valid()
    requires At(env, k).node == ExecutorNode && At(env, k).state.counters.steps < env.config.maxSteps
    requires AtTask(At(env, k).state, i)
    ensures ByTheRules(env, At(env, k).state, Counted(At(env, k).state.counters), i, At(env, k + 1).state)
  {
    hide At, Env.Valid, Once, ByTheRules, ExecuteCurrent, Work, ValidTask;
    AlwaysSound(env, k);
    AlwaysOnce(env, k);
    NextOf(env, k);
    var s := At(env, k).state;
    WorkOf(env, ExecutorNode, s);
    ExecutionByTheRules(env, s, Counted(s.counters), i);
  }
}
