/** Effects across replans: whatever is planned, reviewed or returned by the tools, no call is
    made more often than its limit, and no unrepeatable side effect is made twice. */
module AtMostOnce {
  import opened Options
  import opened Json
  import opened Keys
  import References
  import opened Plans
  import opened Memory
  import opened Graph
  import opened Runs
  import opened Effects
  import opened Accounting

  function Occurrences(trace: seq<Invocation>, key: string): nat {
    if trace == [] then 0
    else
      var last := |trace| - 1;
      Occurrences(trace[..last], key) + if trace[last].key == key then 1 else 0
  }

  lemma OccurrencesSnoc(trace: seq<Invocation>, call: Invocation, key: string)
    ensures Occurrences(trace + [call], key) == Occurrences(trace, key) + if call.key == key then 1 else 0
  {
    assert (trace + [call])[..|trace|] == trace;
  }

  /** The tool changes the world and makes no promise about being asked twice. */
  predicate Unrepeatable(config: Config, tool: string) {
    tool in config.sideEffecting && tool !in config.idempotent
  }

  /** The stored counts are the counts of the trace, the stored side effects are those of the
      trace, and both respect their limits. */
  ghost predicate Once(config: Config, s: State) {
    && (forall key :: Count(s.taskFingerprints, key) == Occurrences(s.trace, key))
    && (forall key :: Occurrences(s.trace, key) <= config.repeatedTaskLimit)
    && (forall i | 0 <= i < |s.trace| && s.trace[i].tool in config.sideEffecting :: s.trace[i].key in s.sideEffects)
    && (forall key | key in s.sideEffects ::
          exists i | 0 <= i < |s.trace| :: s.trace[i].tool in config.sideEffecting && s.trace[i].key == key)
    && (forall i, j | 0 <= i < j < |s.trace| && Unrepeatable(config, s.trace[j].tool)
          && s.trace[i].tool in config.sideEffecting :: s.trace[i].key != s.trace[j].key)
    && (forall i | 0 <= i < |s.trace| :: s.trace[i].key == CanonicalCall(s.trace[i].tool, s.trace[i].arguments))
  }

  /** What an execution does to the trace and the stored fingerprints. */
  ghost predicate Invoked(config: Config, s: State, t: State, call: Invocation) {
    && t.trace == s.trace + [call]
    && t.taskFingerprints == s.taskFingerprints[call.key := Count(s.taskFingerprints, call.key) + 1]
    && t.sideEffects == (if call.tool in config.sideEffecting then s.sideEffects + {call.key} else s.sideEffects)
    && Count(s.taskFingerprints, call.key) < config.repeatedTaskLimit
    && !(Unrepeatable(config, call.tool) && call.key in s.sideEffects)
    && call.key == CanonicalCall(call.tool, call.arguments)
  }

  ghost predicate Uninvoked(s: State, t: State) {
    t.trace == s.trace && t.taskFingerprints == s.taskFingerprints && t.sideEffects == s.sideEffects
  }

  lemma OutcomeInvokes(env: Env, task: PlanTask, evidence: seq<ToolEvidence>, c: Counters,
                       repeated: map<string, nat>, sideEffects: set<string>)
    ensures var o := Execute(env, task, evidence, c, repeated, sideEffects);
            o.Finished? ==>
              match o.invoked
              case None => o.repeated == repeated && o.sideEffects == sideEffects
              case Some(call) =>
                && o.repeated == repeated[call.key := Count(repeated, call.key) + 1]
                && o.sideEffects ==
                   (if call.tool in env.config.sideEffecting then sideEffects + {call.key} else sideEffects)
                && Count(repeated, call.key) < env.config.repeatedTaskLimit
                && !(Unrepeatable(env.config, call.tool) && call.key in sideEffects)
                && call.key == CanonicalCall(call.tool, call.arguments)
  {
    hide CanonicalCall, References.Resolve, EvidenceOf, ResultOf, Count, Settle, ExecutionOf;
  }

  lemma ExecuteInvokes(env: Env, s: State, c: Counters)
    ensures var t := ExecuteCurrent(env, s, c);
            || Uninvoked(s, t)
            || (t.trace != [] && Invoked(env.config, s, t, t.trace[|t.trace| - 1]))
  {
    hide CanonicalCall, IndexOf, Execute, Count, WithTask, Unrepeatable;
    if s.plan.Some? && s.current.Some? && IndexOf(s.plan.value.tasks, s.current.value).Some? {
      var task := s.plan.value.tasks[IndexOf(s.plan.value.tasks, s.current.value).value];
      OutcomeInvokes(env, task, s.memory.evidence, c, s.taskFingerprints, s.sideEffects);
    }
  }

  lemma InvokedOnce(config: Config, s: State, t: State, call: Invocation)
    requires Once(config, s) && Invoked(config, s, t, call)
    ensures Once(config, t)
  {
    forall key
      ensures Count(t.taskFingerprints, key) == Occurrences(t.trace, key) <= config.repeatedTaskLimit
    {
      OccurrencesSnoc(s.trace, call, key);
    }
    hide Occurrences, CanonicalCall;
    forall key | key in t.sideEffects
      ensures exists i | 0 <= i < |t.trace| :: t.trace[i].tool in config.sideEffecting && t.trace[i].key == key
    {
      if key in s.sideEffects {
        var i :| 0 <= i < |s.trace| && s.trace[i].tool in config.sideEffecting && s.trace[i].key == key;
        assert t.trace[i] == s.trace[i];
      } else {
        assert t.trace[|s.trace|] == call;
      }
    }
  }

  /** Only the executor invokes anything. */
  lemma OthersDoNotInvoke(env: Env, node: Node, s: State)
    requires env.Valid() && Accounting.Sound(env, Configuration(node, s)) && node != ExecutorNode
    ensures Uninvoked(s, Work(env, node, s, Counted(s.counters)))
  {
    hide Env.Valid, ValidPlan, PlanSound, InvokePlanner, Schedule, ExecuteCurrent, ReviewCurrent, ReflectOnReview, Ids;
    var c := Counted(s.counters);
    match node
    case Planner => PlannerEffect(env, s, c, false);
    case ReplanNode => PlannerEffect(env, s, c, true);
    case SchedulerNode => SchedulerShape(s, c);
    case ReviewerNode =>
      IndexOfMember(s.plan.value.tasks, s.current.value);
      ReviewEffect(env, s, c);
    case ReflectionNode => ReflectEffect(env, s, c);
    case _ =>
  }

  lemma OnceAfterStep(env: Env, k: Configuration)
    requires env.Valid() && PlanValid(k.state) && Accounting.Sound(env, k) && Once(env.config, k.state)
    ensures Once(env.config, Step(env, k).state)
  {
    hide Env.Valid, ValidPlan, Accounting.Sound, ExecuteCurrent, Invoked, Occurrences;
    var s := k.state;
    var t := Step(env, k).state;
    if Ending(k.node) || s.counters.steps >= env.config.maxSteps {
      assert Uninvoked(s, t);
    } else if k.node == ExecutorNode {
      ExecuteInvokes(env, s, Counted(s.counters));
      if !Uninvoked(s, t) {
        InvokedOnce(env.config, s, t, t.trace[|t.trace| - 1]);
      }
    } else {
      OthersDoNotInvoke(env, k.node, s);
    }
  }

  /** In every run, at every moment: each call was made at most `repeatedTaskLimit` times, an
      unrepeatable side effect at most once, and the stored fingerprints count the calls made. */
  lemma {:induction false} AlwaysOnce(env: Env, k: nat)
    requires env.Valid()
    ensures Once(env.config, At(env, k).state)
  {
    hide RunNode, Env.Valid, Occurrences;
    if k > 0 {
      AlwaysOnce(env, k - 1);
      AlwaysSound(env, k - 1);
      OnceAfterStep(env, At(env, k - 1));
    } else {
      assert forall key :: Occurrences([], key) == 0 by { EmptyTrace(); }
    }
  }

  lemma EmptyTrace()
    ensures forall key :: Occurrences([], key) == 0
  {
  }
}
