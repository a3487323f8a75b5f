/** The agent runtime as it runs: messages, events and steps in fields, its controller beside
    them, and its three loops as loops. */
module AgentRuntime {
  import opened Options
  import opened Json
  import opened Keys
  import opened Reliability
  import opened Sayings
  import opened AgentLoop
  import opened AgentLaws
  import opened AgentRuns
  import AgentStory

  /** What `_terminal` and `_result` are given beside the runtime's own state. */
  datatype Exit = Exit(status: Status, reason: Option<Reason>, response: string)

  datatype AgentResult = AgentResult(
    status: Status,
    response: string,
    steps: nat,
    toolEvents: seq<ToolEvent>,
    reason: Option<Reason>,
    modelCalls: nat,
    toolCalls: nat,
    retries: nat,
    failures: nat,
    consecutive: nat,
    failureDetails: seq<Failure>)

  /** The result object of a run. */
  function Report(r: Result): AgentResult
    requires r.Result?
  {
    var c := r.agent.control;
    AgentResult(r.status, r.response, r.agent.steps, r.agent.events, r.reason, c.modelCalls, c.toolCalls, c.retries,
                |c.failures|, c.consecutive, c.failures)
  }

  /** The result object repeats how the run ended, its events and its steps; it counts the attempts of
      the history and the failures in a row at its end; and it details the failed attempts, in order. */
  lemma ReportIsTold(env: Env)
    requires env.config.Valid()
    ensures AgentLoop.Run(env).Result?
    ensures var r, x := AgentLoop.Run(env), Report(AgentLoop.Run(env));
            && x.status == r.status && x.reason == r.reason && x.response == r.response
            && x.toolEvents == r.agent.events && x.steps == r.agent.steps
            && x.modelCalls == Tally(r.agent.log).asks && x.toolCalls == Tally(r.agent.log).tries
            && x.consecutive == Tally(r.agent.log).trailing
            && x.failureDetails == AgentStory.Details(r.agent.log) && x.failures == |x.failureDetails|
            && x.modelCalls + x.toolCalls == x.steps + |x.toolEvents| + x.retries
  {
    hide AgentLoop.Run, Config.Valid, Tally, AgentStory.Orderly, AgentStory.NearlySettled, AgentStory.AllReported,
         AgentStory.EndsRight, AgentStory.Details, AttemptSum, OkEvents;
    AgentStory.RunIsTold(env);
    AccountingLaw(env);
    BudgetsHold(env);
    FailureRunsAreShort(env);
  }

  class AgentRuntime {
    const env: Env
    const control: ReliabilityController
    var messages: seq<Message>
    var events: seq<ToolEvent>
    var steps: nat
    var log: seq<Attempt>

    ghost function Contents(): Agent
      reads this, control
    {
      Agent(messages, events, steps, control.Contents(), log)
    }

    ghost predicate Valid()
    {
      env.config.Valid() && control.config == env.config
    }

    constructor (env: Env)
      requires env.config.Valid()
      ensures this.env == env && fresh(control) && Valid() && Contents() == Start(env)
    {
      this.env := env;
      control := new ReliabilityController(env.config);
      messages := [SystemMessage(env.system), UserMessage(env.task)];
      events, steps, log := [], 0, [];
    }

    /** The call of `_complete_provider`: counted, and seen by the provider. */
    method AskProvider() returns (reply: ProviderReply)
      modifies this, control
      ensures reply == env.provider(old(log), old(messages))
      ensures Contents() == old(Contents()).(
                log := old(log) + [Asked(old(messages), reply)],
                control := old(control.Contents()).(modelCalls := old(control.modelCalls) + 1))
    {
      control.modelCalls := control.modelCalls + 1;
      reply := env.provider(log, messages);
      log := log + [Asked(messages, reply)];
    }

    /** The retry loop around the provider. */
    method ProviderLoop() returns (turn: Turn, exit: Option<Exit>)
      requires Valid()
      modifies this, control
      ensures match exit
              case None => ProviderPhase(env, old(Contents()), 1, true) == Going(Contents(), turn)
              case Some(e) => ProviderPhase(env, old(Contents()), 1, true) ==
                              Stopped(Result(e.status, e.reason, e.response, Contents()))
    {
      hide Say, Config.Valid;
      turn := Turn(None, []);
      AttemptsAllowed(env.config);
      var policy, attempt := env.config.providerRetry, 1;
      while true
        invariant 1 <= attempt <= policy.maxAttempts
        invariant ProviderPhase(env, Contents(), attempt, true) == ProviderPhase(env, old(Contents()), 1, true)
        decreases policy.maxAttempts - attempt
      {
        if control.ModelBudgetReason().Some? {
          return turn, Some(Exit(ReliabilityStatus, control.ModelBudgetReason(), Say(ModelBudgetSpent)));
        }
        var reply := AskProvider();
        if reply.Completed? {
          control.RecordSuccess();
          return reply.turn, None;
        }
        control.RecordFailure(Failure(true, reply.kind, reply.message, reply.retryable, attempt, None));
        if !reply.retryable {
          return turn, Some(Exit(ProviderErrorStatus, Some(ProviderFailure), reply.message));
        }
        if attempt >= policy.maxAttempts {
          var reason := if reply.kind == "provider_timeout" then ProviderTimeout else ProviderRetryExhausted;
          return turn, Some(Exit(ProviderErrorStatus, Some(reason), Say(ProviderExhausted(reply.message))));
        }
        if control.FailureLimitReason().Some? {
          return turn, Some(Exit(ReliabilityStatus, control.FailureLimitReason(), Say(ProviderFailedOften)));
        }
        if control.ModelBudgetReason().Some? {
          return turn, Some(Exit(ReliabilityStatus, Some(ModelCallBudgetExhausted), Say(NoProviderRetry)));
        }
        attempt := attempt + 1;
        control.Retry(policy, attempt);
      }
    }

    /** The call of `_execute_tool`: counted, and seen by the tools. */
    method ExecuteTool(call: ToolCall) returns (result: Fields)
      modifies this, control
      ensures result == ResultOf(call.name, env.tools(old(log), call.name, call.arguments))
      ensures Contents() == old(Contents()).(
                log := old(log) + [Tried(call, env.tools(old(log), call.name, call.arguments))],
                control := old(control.Contents()).(toolCalls := old(control.toolCalls) + 1))
    {
      hide ResultOf;
      control.toolCalls := control.toolCalls + 1;
      var reply := env.tools(log, call.name, call.arguments);
      log := log + [Tried(call, reply)];
      result := ResultOf(call.name, reply);
    }

    method Note(call: ToolCall, result: Fields, attempts: nat, retries: nat)
      modifies this
      ensures Contents() == WithEvent(old(Contents()), call, result, attempts, retries)
    {
      events := events + [ToolEvent(call, result, attempts, retries)];
    }

    method Tell(call: ToolCall, result: Fields)
      modifies this
      ensures Contents() == Told(old(Contents()), call, result)
    {
      messages := messages + [ToolMessage(call.id, result)];
    }

    /** One attempt of a call, and what the controller records of it. */
    method TryCall(call: ToolCall, attempt: nat, recorded: bool) returns (result: Fields, error: ToolError)
      requires Valid()
      modifies this, control
      ensures result == ResultOf(call.name, env.tools(old(log), call.name, call.arguments)) && error == ErrorOf(result)
      ensures Contents() == Try(env, old(Contents()), call, attempt, recorded)
    {
      hide Config.Valid, ResultOf, ErrorOf, Ok, CanonicalCall;
      result := ExecuteTool(call);
      error := ErrorOf(result);
      if !recorded && Ok(result) {
        control.RecordValidatedCall(call.name, call.arguments);
      }
      if Ok(result) {
        control.RecordSuccess();
      } else {
        control.RecordFailure(Failure(false, error.kind, error.message, error.retryable, attempt, Some(call.name)));
      }
    }

    /** The retry loop around one tool call. It ends with the first success, so no call is
        recorded twice. */
    method CallLoop(call: ToolCall) returns (exit: Option<Exit>)
      requires Valid()
      modifies this, control
      ensures match exit
              case None => CallPhase(env, old(Contents()), call, 1, false, true) == Going(Contents(), ())
              case Some(e) => CallPhase(env, old(Contents()), call, 1, false, true) ==
                              Stopped(Result(e.status, e.reason, e.response, Contents()))
    {
      hide Say, Config.Valid, ResultOf, ErrorOf, Ok, RetryIsSafe, FailurePhase, Try;
      AttemptsAllowed(env.config);
      var policy, attempt, recorded := env.config.toolRetry, 1, false;
      while true
        invariant 1 <= attempt <= policy.maxAttempts && !recorded
        invariant CallPhase(env, Contents(), call, attempt, false, true) ==
                  CallPhase(env, old(Contents()), call, 1, false, true)
        decreases policy.maxAttempts - attempt
      {
        if control.ToolBudgetReason().Some? {
          return Some(Exit(ReliabilityStatus, Some(ToolCallBudgetExhausted), Say(NoToolRetry)));
        }
        var result, error := TryCall(call, attempt, recorded);
        if Ok(result) {
          recorded := true;
          Note(call, result, attempt, attempt - 1);
          Tell(call, result);
          return None;
        }
        var again;
        exit, again := AfterFailure(call, result, error, attempt);
        if !again {
          return;
        }
        attempt := attempt + 1;
        control.Retry(policy, attempt);
      }
    }

    /** What follows a failed attempt: another one, an exit, or the failure as the answer. */
    method AfterFailure(call: ToolCall, result: Fields, error: ToolError,
                        attempt: nat) returns (exit: Option<Exit>, again: bool)
      requires Valid() && 1 <= attempt <= env.config.toolRetry.maxAttempts
      modifies this
      ensures again <==> Again(env, old(Contents()), call, error, attempt)
      ensures again ==> Contents() == old(Contents())
      ensures !again ==>
                FailurePhase(env, old(Contents()), call, result, error, attempt) ==
                match exit
                case None => Going(Contents(), ())
                case Some(e) => Stopped(Result(e.status, e.reason, e.response, Contents()))
    {
      hide Say, RetryIsSafe;
      exit, again := None, false;
      var more := attempt < env.config.toolRetry.maxAttempts;
      if error.retryable && more && !RetryIsSafe(env.config, call.name, call.arguments) {
        exit := Some(Exit(ReliabilityStatus, Some(UnsafeRetryBlocked), Say(UnsafeRetry(call.name))));
      } else if control.FailureLimitReason().Some? {
        exit := Some(Exit(ReliabilityStatus, control.FailureLimitReason(), Say(ToolsFailedOften)));
      } else if error.retryable {
        if more {
          if control.ToolBudgetReason().None? {
            return None, true;
          }
          exit := Some(Exit(ReliabilityStatus, Some(ToolCallBudgetExhausted), Say(NoToolRetry)));
        } else {
          var reason := if error.kind == "tool_timeout" then ToolTimeout else ToolFailure;
          exit := Some(Exit(ReliabilityStatus, Some(reason), Say(ToolExhausted(call.name, error.message))));
        }
      } else if error.kind == "tool_timeout" {
        Note(call, result, attempt, 0);
        return Some(Exit(ReliabilityStatus, Some(ToolTimeout), Say(ToolTimedOut(call.name, error.message)))), false;
      }
      Note(call, result, attempt, attempt - 1);
      if exit.None? {
        Tell(call, result);
      }
    }

    /** The loop over the calls of a turn. */
    method CallsLoop(calls: seq<ToolCall>) returns (exit: Option<Exit>)
      requires Valid()
      modifies this, control
      ensures match exit
              case None => CallsPhase(env, old(Contents()), calls, 0, true) == Going(Contents(), ())
              case Some(e) => CallsPhase(env, old(Contents()), calls, 0, true) ==
                              Stopped(Result(e.status, e.reason, e.response, Contents()))
    {
      hide Say, Config.Valid, CallPhase, CanonicalCall;
      for i := 0 to |calls|
        invariant CallsPhase(env, Contents(), calls, i, true) == CallsPhase(env, old(Contents()), calls, 0, true)
      {
        var call := calls[i];
        if control.ToolBudgetReason().Some? {
          return Some(Exit(ReliabilityStatus, control.ToolBudgetReason(), Say(ToolBudgetSpent)));
        }
        var repeated := control.RepeatedCallReason(call.name, call.arguments);
        if repeated.Some? {
          return Some(Exit(ReliabilityStatus, repeated, Say(CallRepeated(call.name))));
        }
        AttemptsAllowed(env.config);
        exit := CallLoop(call);
        if exit.Some? {
          return;
        }
      }
      return None;
    }

    /** One turn of the outer loop: the provider, its message, its calls. */
    method TakeTurn() returns (exit: Option<Exit>)
      requires Valid() && control.modelCalls < env.config.maxModelCalls && steps < env.config.maxSteps
      modifies this, control
      ensures match exit
              case None => old(steps) < steps < env.config.maxSteps
                && Turns(env, old(Contents()), true) == Turns(env, Contents(), true)
              case Some(e) => Turns(env, old(Contents()), true) == Result(e.status, e.reason, e.response, Contents())
    {
      hide Say, Config.Valid, ProviderPhase, CallsPhase;
      AttemptsAllowed(env.config);
      steps := steps + 1;
      PhasesKeepSteps(env, Contents(), []);
      var turn;
      turn, exit := ProviderLoop();
      if exit.Some? {
        return;
      }
      messages := messages + [AssistantMessage(turn.content, turn.calls)];
      if turn.calls == [] {
        return Some(Exit(CompletedStatus, None, turn.content.GetOr("")));
      }
      PhasesKeepSteps(env, Contents(), turn.calls);
      exit := CallsLoop(turn.calls);
      if exit.None? && steps >= env.config.maxSteps {
        exit := Some(Exit(MaxStepsStatus, Some(StepBudgetExhausted), Say(StepsSpent(env.config.maxSteps))));
      }
    }

    /** `_run`. Its trailing assertion is never reached. */
    method Run() returns (result: AgentResult)
      requires Valid() && Contents() == Start(env)
      modifies this, control
      ensures AgentLoop.Run(env).Result? && AgentLoop.Run(env).agent == Contents()
      ensures result == Report(AgentLoop.Run(env))
    {
      hide Say, Config.Valid, Turns, Truthful, Kept;
      RunIsClosed(env);
      AttemptsAllowed(env.config);
      var exit: Option<Exit> := None;
      while exit.None?
        invariant match exit
                  case None => steps < env.config.maxSteps && Turns(env, Contents(), true) == AgentLoop.Run(env)
                  case Some(e) => AgentLoop.Run(env) == Result(e.status, e.reason, e.response, Contents())
        decreases exit.None?, env.config.maxSteps - steps
      {
        if control.ModelBudgetReason().Some? {
          BudgetStops(env, Contents());
          exit := Some(Exit(ReliabilityStatus, control.ModelBudgetReason(), Say(ModelBudgetSpent)));
        } else {
          exit := TakeTurn();
        }
      }
      var e := exit.value;
      result := AgentResult(e.status, e.response, steps, events, e.reason, control.modelCalls, control.toolCalls,
                            control.retries, |control.failures|, control.consecutive, control.failures);
    }
  }

  lemma PhasesKeepSteps(env: Env, a: Agent, calls: seq<ToolCall>)
    requires env.config.Valid()
    ensures 1 <= env.config.providerRetry.maxAttempts
    ensures var r := ProviderPhase(env, a, 1, true); r.Going? ==> r.agent.steps == a.steps
    ensures var r := CallsPhase(env, a, calls, 0, true); r.Going? ==> r.agent.steps == a.steps
  {
  }

  lemma BudgetStops(env: Env, a: Agent)
    requires env.config.Valid() && a.steps < env.config.maxSteps && a.control.modelCalls >= env.config.maxModelCalls
    ensures Turns(env, a, true) == Stop(ModelCallBudgetExhausted, Say(ModelBudgetSpent), a)
  {
  }
}
