/** The retries written into events: one less than the attempts, but for one exit. */
module AgentRetries {
  import opened Options
  import opened Json
  import opened Keys
  import opened Reliability
  import opened Sayings
  import opened AgentLoop
  import opened AgentLaws
  import opened AgentRuns

  /** Every event has its retries. */
  ghost predicate AllNoted(a: Agent) {
    forall i | 0 <= i < |a.events| :: a.events[i].retries == a.events[i].attempts - 1
  }

  /** The last event of a run that ended with a timeout not to be retried, after retries. */
  ghost predicate Unnoted(r: Result, i: nat)
    requires r.Result?
  {
    && i + 1 == |r.agent.events| && r.reason == Some(ToolTimeout)
    && !ErrorOf(r.agent.events[i].result).retryable && r.agent.events[i].attempts > 1
  }

  /** Exactly that event lacks its retries, and it is no success. */
  ghost predicate Noted(r: Result)
    requires r.Result?
  {
    forall i: nat | i < |r.agent.events| ::
      && (r.agent.events[i].retries != r.agent.events[i].attempts - 1 <==> Unnoted(r, i))
      && (Unnoted(r, i) ==> !Ok(r.agent.events[i].result))
  }

  lemma AllNotedIsNoted(r: Result)
    requires r.Result? && AllNoted(r.agent) && r.reason != Some(ToolTimeout)
    ensures Noted(r)
  {
    hide ErrorOf;
  }

  lemma {:induction false} ProviderNotes(env: Env, a: Agent, attempt: nat)
    requires 1 <= attempt <= env.config.providerRetry.maxAttempts && AllNoted(a)
    ensures match ProviderPhase(env, a, attempt, true)
            case Going(b, _) => AllNoted(b)
            case Stopped(r) => r.Result? && AllNoted(r.agent) && r.reason != Some(ToolTimeout)
    decreases env.config.providerRetry.maxAttempts - attempt
  {
    hide Ask, Say;
    var b := Ask(env, a, attempt);
    AskCounts(env, a, attempt);
    match env.provider(a.log, a.messages)
    case Completed(_) =>
    case Errored(_, _, retryable) =>
      if retryable && attempt < env.config.providerRetry.maxAttempts && b.control.consecutive < env.config.failureLimit
         && b.control.modelCalls < env.config.maxModelCalls {
        ProviderNotes(env, b.(control := Retried(b.control, env.config.providerRetry, attempt + 1)), attempt + 1);
      }
  }

  lemma FailureNotes(env: Env, b: Agent, call: ToolCall, result: Fields, attempt: nat)
    requires 1 <= attempt <= env.config.toolRetry.maxAttempts && AllNoted(b)
    requires !Ok(result) && !Again(env, b, call, ErrorOf(result), attempt)
    ensures match FailurePhase(env, b, call, result, ErrorOf(result), attempt)
            case Going(c, _) => AllNoted(c)
            case Stopped(r) => r.Result? && Noted(r)
  {
    hide Say, RetryIsSafe, ErrorOf, Ok;
  }

  lemma {:induction false} CallNotes(env: Env, a: Agent, call: ToolCall, attempt: nat)
    requires 1 <= attempt <= env.config.toolRetry.maxAttempts && AllNoted(a)
    ensures match CallPhase(env, a, call, attempt, false, true)
            case Going(b, _) => AllNoted(b)
            case Stopped(r) => r.Result? && Noted(r)
    decreases env.config.toolRetry.maxAttempts - attempt
  {
    hide Try, Say, ResultOf, Ok, ErrorOf, Again, FailurePhase, Unnoted;
    var b, result := Try(env, a, call, attempt, false), ResultNow(env, a, call);
    TryCounts(env, a, call, attempt, false);
    if a.control.toolCalls >= env.config.maxToolCalls {
      AllNotedIsNoted(Stop(ToolCallBudgetExhausted, Say(NoToolRetry), a));
    } else if !Ok(result) {
      if Again(env, b, call, ErrorOf(result), attempt) {
        AttemptsLeft(env, b, call, ErrorOf(result), attempt);
        CallNotes(env, b.(control := Retried(b.control, env.config.toolRetry, attempt + 1)), call, attempt + 1);
      } else {
        FailureNotes(env, b, call, result, attempt);
      }
    }
  }

  lemma AttemptsLeft(env: Env, b: Agent, call: ToolCall, e: ToolError, attempt: nat)
    requires Again(env, b, call, e, attempt)
    ensures attempt < env.config.toolRetry.maxAttempts
  {
    hide RetryIsSafe;
  }

  lemma {:induction false} CallsNote(env: Env, a: Agent, calls: seq<ToolCall>, i: nat)
    requires env.config.Valid() && i <= |calls| && AllNoted(a)
    ensures match CallsPhase(env, a, calls, i, true)
            case Going(b, _) => AllNoted(b)
            case Stopped(r) => r.Result? && Noted(r)
    decreases |calls| - i
  {
    hide CallPhase, Say, CanonicalCall, Config.Valid, AllNoted, Noted;
    if i < |calls| {
      AttemptsAllowed(env.config);
      AllNotedIsNoted(Stop(ToolCallBudgetExhausted, Say(ToolBudgetSpent), a));
      AllNotedIsNoted(Stop(RepeatedToolCall, Say(CallRepeated(calls[i].name)), a));
      CallNotes(env, a, calls[i], 1);
      if CallPhase(env, a, calls[i], 1, false, true).Going? {
        CallsNote(env, CallPhase(env, a, calls[i], 1, false, true).agent, calls, i + 1);
      }
    }
  }

  lemma {:induction false} TurnsNote(env: Env, a: Agent)
    requires env.config.Valid() && AllNoted(a)
    ensures var r := Turns(env, a, true); r.Result? ==> Noted(r)
    decreases env.config.maxSteps - a.steps
  {
    hide ProviderPhase, CallsPhase, Say, Config.Valid, Noted;
    AttemptsAllowed(env.config);
    if a.steps < env.config.maxSteps && a.control.modelCalls < env.config.maxModelCalls {
      var begun := a.(steps := a.steps + 1);
      ProviderNotes(env, begun, 1);
      match ProviderPhase(env, begun, 1, true)
      case Stopped(r) => AllNotedIsNoted(r);
      case Going(b, turn) =>
        var heard := b.(messages := b.messages + [AssistantMessage(turn.content, turn.calls)]);
        PhaseSteps(env, begun);
        if turn.calls == [] {
          AllNotedIsNoted(Result(CompletedStatus, None, turn.content.GetOr(""), heard));
        } else {
          CallsNote(env, heard, turn.calls, 0);
          CallsSteps(env, heard, turn.calls);
          match CallsPhase(env, heard, turn.calls, 0, true)
          case Stopped(_) =>
          case Going(c, _) =>
            AllNotedIsNoted(Result(MaxStepsStatus, Some(StepBudgetExhausted), Say(StepsSpent(env.config.maxSteps)), c));
            if c.steps < env.config.maxSteps {
              TurnsNote(env, c);
            }
        }
    } else if a.steps < env.config.maxSteps {
      AllNotedIsNoted(Stop(ModelCallBudgetExhausted, Say(ModelBudgetSpent), a));
    }
  }

  lemma PhaseSteps(env: Env, a: Agent)
    requires 1 <= env.config.providerRetry.maxAttempts
    ensures var r := ProviderPhase(env, a, 1, true); r.Going? ==> r.agent.steps == a.steps
  {
  }

  lemma CallsSteps(env: Env, a: Agent, calls: seq<ToolCall>)
    requires env.config.Valid()
    ensures var r := CallsPhase(env, a, calls, 0, true); r.Going? ==> r.agent.steps == a.steps
  {
  }

  /** In every run an event's retries are one less than its attempts, except in exactly one case:
      the last event, a failure, of a run that ended TOOL_TIMEOUT with a failure that is not
      retryable, after more than one attempt. */
  lemma RetriesAreNoted(env: Env, i: nat)
    requires env.config.Valid()
    ensures Run(env).Result?
    ensures var r := Run(env);
            i < |r.agent.events| ==>
              && (r.agent.events[i].retries != r.agent.events[i].attempts - 1 <==> Unnoted(r, i))
              && (Unnoted(r, i) ==> !Ok(r.agent.events[i].result))
  {
    hide Ok, Turns, Config.Valid, Truthful, Kept, NearlyEchoed, Unnoted;
    RunIsClosed(env);
    TurnsNote(env, Start(env));
  }

  // ---------------------------------------------------------------------
  // The exception

  /** A failure worth another attempt, and a timeout that says nothing of one. */
  const BUSY: Fields := [
    Field("ok", Bool(false)), Field("error", Obj([Field("type", Str("busy")), Field("retryable", Bool(true))]))]

  const LATE: Fields := [Field("ok", Bool(false)), Field("error", Obj([Field("type", Str("tool_timeout"))]))]

  lemma BusyIsRetryable()
    ensures !Ok(BUSY) && ErrorOf(BUSY).retryable
    ensures forall name :: ResultOf(name, Returned(Obj(BUSY))) == BUSY
  {
    var error := [Field("type", Str("busy")), Field("retryable", Bool(true))];
    assert Lookup(BUSY, "ok") == Some(Bool(false)) && Lookup(BUSY, "error") == Some(Obj(error));
    assert Lookup(error, "retryable") == Some(Bool(true));
  }

  lemma LateIsFinal()
    ensures !Ok(LATE) && !ErrorOf(LATE).retryable && ErrorOf(LATE).kind == "tool_timeout"
    ensures forall name :: ResultOf(name, Returned(Obj(LATE))) == LATE
  {
    var error := [Field("type", Str("tool_timeout"))];
    assert Lookup(LATE, "ok") == Some(Bool(false)) && Lookup(LATE, "error") == Some(Obj(error));
    assert Lookup(error, "retryable") == None && Lookup(error, "type") == Some(Str("tool_timeout"));
  }

  /** The provider asks for one safe call; its tool is busy, and then late. */
  ghost predicate LateAfterBusy(env: Env, call: ToolCall) {
    var asked := [Asked(Start(env).messages, env.provider([], Start(env).messages))];
    && env.config.Valid() && env.config.toolRetry.maxAttempts >= 2 && env.config.failureLimit >= 3
    && env.config.maxToolCalls >= 2 && RetryIsSafe(env.config, call.name, call.arguments)
    && env.provider([], Start(env).messages) == Completed(Turn(None, [call]))
    && env.tools(asked, call.name, call.arguments) == Returned(Obj(BUSY))
    && env.tools(asked + [Tried(call, Returned(Obj(BUSY)))], call.name, call.arguments) == Returned(Obj(LATE))
  }

  lemma LateAttempt(env: Env, b: Agent, call: ToolCall)
    requires env.config.Valid() && env.config.toolRetry.maxAttempts >= 2
    requires b.control.toolCalls < env.config.maxToolCalls
    requires b.control.consecutive + 1 < env.config.failureLimit
    requires env.tools(b.log, call.name, call.arguments) == Returned(Obj(LATE))
    ensures var r := CallPhase(env, b, call, 2, false, true);
            && r.Stopped? && r.result.Result? && r.result.reason == Some(ToolTimeout)
            && r.result.agent.events == b.events + [ToolEvent(call, LATE, 2, 0)]
  {
    hide Try, Say, Ok, ErrorOf, ResultOf, LATE, Config.Valid, RetryIsSafe;
    LateIsFinal();
    TryCounts(env, b, call, 2, false);
  }

  lemma BusyAttempt(env: Env, a: Agent, call: ToolCall)
    requires env.config.Valid() && env.config.toolRetry.maxAttempts >= 2 && a.control.toolCalls == 0
    requires a.control.consecutive == 0 && env.config.failureLimit >= 3 && env.config.maxToolCalls >= 2
    requires RetryIsSafe(env.config, call.name, call.arguments)
    requires env.tools(a.log, call.name, call.arguments) == Returned(Obj(BUSY))
    requires env.tools(a.log + [Tried(call, Returned(Obj(BUSY)))], call.name, call.arguments) == Returned(Obj(LATE))
    ensures var r := CallPhase(env, a, call, 1, false, true);
            && r.Stopped? && r.result.Result? && r.result.reason == Some(ToolTimeout)
            && r.result.agent.events == a.events + [ToolEvent(call, LATE, 2, 0)]
  {
    hide Try, Say, Ok, ErrorOf, ResultOf, LATE, BUSY, Config.Valid, RetryIsSafe, FailurePhase, Delay;
    BusyIsRetryable();
    TryCounts(env, a, call, 1, false);
    var b := Try(env, a, call, 1, false);
    LateAttempt(env, b.(control := Retried(b.control, env.config.toolRetry, 2)), call);
  }

  /** Such a run ends with an event of two attempts and no retries. */
  lemma LateRunLosesItsRetry(env: Env, call: ToolCall)
    requires LateAfterBusy(env, call)
    ensures var r := Run(env);
            && r.Result? && r.reason == Some(ToolTimeout)
            && r.agent.events == [ToolEvent(call, LATE, 2, 0)] && Unnoted(r, 0)
  {
    hide Say, LATE, BUSY, RetryIsSafe, CallPhase, CanonicalCall, ErrorOf;
    LateIsFinal();
    var begun := Start(env).(steps := 1);
    var b := Ask(env, begun, 1);
    assert ProviderPhase(env, begun, 1, true) == Going(b, Turn(None, [call]));
    var heard := b.(messages := b.messages + [AssistantMessage(None, [call])]);
    assert heard.log == [Asked(Start(env).messages, env.provider([], Start(env).messages))];
    BusyAttempt(env, heard, call);
    assert CallsPhase(env, heard, [call], 0, true) == Stopped(CallPhase(env, heard, call, 1, false, true).result);
  }
}
