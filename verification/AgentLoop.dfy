/** The single-agent loop: provider turns, tool calls, retries of both, and every exit. */
module AgentLoop {
  import opened Options
  import opened Json
  import opened Keys
  import opened Results
  import opened Reliability
  import opened Sayings

  // ---------------------------------------------------------------------
  // What the loop talks to. Provider and tools may answer differently each time: they see
  // every attempt made before.

  datatype ToolCall = ToolCall(id: string, name: string, arguments: Json)

  datatype Turn = Turn(content: Option<string>, calls: seq<ToolCall>)

  datatype ProviderReply = Completed(turn: Turn) | Errored(kind: string, message: string, retryable: bool)

  datatype ToolReply = TimedOut(message: string) | Raised(message: string) | Returned(result: Json)

  datatype Message =
    | SystemMessage(text: string)
    | UserMessage(text: string)
    | AssistantMessage(content: Option<string>, calls: seq<ToolCall>)
    | ToolMessage(callId: string, result: Fields)

  datatype Attempt = Asked(messages: seq<Message>, heard: ProviderReply) | Tried(call: ToolCall, reply: ToolReply)

  datatype Env = Env(
    config: Config,
    provider: (seq<Attempt>, seq<Message>) -> ProviderReply,
    tools: (seq<Attempt>, string, Json) -> ToolReply,
    system: string,
    task: string)

  // ---------------------------------------------------------------------
  // Tool results

  /** `_execute_tool`: the result the loop sees is a dict with a boolean "ok". */
  function ResultOf(name: string, reply: ToolReply): (r: Fields)
    ensures Lookup(r, "ok").Some? && Lookup(r, "ok").value.Bool?
  {
    match reply
    case TimedOut(message) => TimeoutResult(if message != "" then message else Say(ToolExceeded(name)))
    case Raised(message) => ErrorResult("tool_execution_error", message)
    case Returned(result) =>
      if result.Obj? && Lookup(result.fields, "ok").Some? && Lookup(result.fields, "ok").value.Bool? then result.fields
      else ErrorResult("malformed_tool_result", Say(ToolUnusable(name)))
  }

  function TimeoutResult(message: string): Fields {
    [Field("ok", Bool(false)),
     Field("error", Obj([Field("type", Str("tool_timeout")), Field("message", Str(message)),
                         Field("retryable", Bool(true)), Field("ambiguous", Bool(true))]))]
  }

  function ErrorResult(kind: string, message: string): Fields {
    [Field("ok", Bool(false)), Field("error", Obj([Field("type", Str(kind)), Field("message", Str(message))]))]
  }

  datatype ToolError = ToolError(kind: string, message: string, retryable: bool)

  /** `_tool_error`. */
  function ErrorOf(result: Fields): ToolError {
    match Lookup(result, "error")
    case Some(Obj(error)) =>
      ToolError(FailureType(error), TextField(error, "message", "Tool execution failed"), Flag(error, "retryable"))
    case _ => ToolError("malformed_tool_result", Say(NoStructuredError), false)
  }

  predicate Ok(result: Fields) {
    Flag(result, "ok")
  }

  // ---------------------------------------------------------------------
  // The run

  datatype ToolEvent = ToolEvent(call: ToolCall, result: Fields, attempts: nat, retries: nat)

  /** The loop's variables, its controller, and the history of its attempts. */
  datatype Agent = Agent(messages: seq<Message>, events: seq<ToolEvent>, steps: nat, control: Control,
                         log: seq<Attempt>)

  datatype Status = CompletedStatus | MaxStepsStatus | ProviderErrorStatus | ReliabilityStatus

  /** An agent result, or the assertion error behind the loop. */
  datatype Result = Result(status: Status, reason: Option<Reason>, response: string, agent: Agent) | Fell(agent: Agent)

  datatype Phase<T> = Going(agent: Agent, value: T) | Stopped(result: Result)

  function Stop(reason: Reason, response: string, a: Agent): Result {
    Result(ReliabilityStatus, Some(reason), response, a)
  }

  function Start(env: Env): Agent {
    Agent([SystemMessage(env.system), UserMessage(env.task)], [], 0, NO_CALLS, [])
  }

  /** One provider call: counted, logged, and its success or failure recorded. */
  function Ask(env: Env, a: Agent, attempt: nat): Agent {
    var reply := env.provider(a.log, a.messages);
    var c := a.control.(modelCalls := a.control.modelCalls + 1);
    a.(log := a.log + [Asked(a.messages, reply)],
       control := match reply
                  case Completed(_) => Succeeded(c)
                  case Errored(kind, message, retryable) =>
                    Failed(c, Failure(true, kind, message, retryable, attempt, None)))
  }

  /** The provider loop from attempt `attempt` on. `recheck` says whether it looks at its budget
      again at its top, as the source does. */
  function ProviderPhase(env: Env, a: Agent, attempt: nat, recheck: bool): (r: Phase<Turn>)
    requires 1 <= attempt <= env.config.providerRetry.maxAttempts
    ensures r.Going? ==> r.agent.steps == a.steps
    decreases env.config.providerRetry.maxAttempts - attempt
  {
    if recheck && a.control.modelCalls >= env.config.maxModelCalls then
      Stopped(Stop(ModelCallBudgetExhausted, Say(ModelBudgetSpent), a))
    else
      var b := Ask(env, a, attempt);
      match env.provider(a.log, a.messages)
      case Completed(turn) => Going(b, turn)
      case Errored(kind, message, retryable) =>
        if !retryable then Stopped(Result(ProviderErrorStatus, Some(ProviderFailure), message, b))
        else if attempt >= env.config.providerRetry.maxAttempts then
          Stopped(Result(ProviderErrorStatus,
                         Some(if kind == "provider_timeout" then ProviderTimeout else ProviderRetryExhausted),
                         Say(ProviderExhausted(message)), b))
        else if b.control.consecutive >= env.config.failureLimit then
          Stopped(Stop(ConsecutiveFailureLimit, Say(ProviderFailedOften), b))
        else if b.control.modelCalls >= env.config.maxModelCalls then
          Stopped(Stop(ModelCallBudgetExhausted, Say(NoProviderRetry), b))
        else
          ProviderPhase(env, b.(control := Retried(b.control, env.config.providerRetry, attempt + 1)),
                        attempt + 1, recheck)
  }

  /** One tool execution: counted, logged, a first success noted, its success or failure recorded. */
  function Try(env: Env, a: Agent, call: ToolCall, attempt: nat, recorded: bool): Agent {
    var reply := env.tools(a.log, call.name, call.arguments);
    var result := ResultOf(call.name, reply);
    var e := ErrorOf(result);
    var c := a.control.(toolCalls := a.control.toolCalls + 1);
    var noted := if !recorded && Ok(result) then Validated(c, call.name, call.arguments) else c;
    a.(log := a.log + [Tried(call, reply)],
       control := if Ok(result) then Succeeded(noted)
                  else Failed(noted, Failure(false, e.kind, e.message, e.retryable, attempt, Some(call.name))))
  }

  function WithEvent(a: Agent, call: ToolCall, result: Fields, attempts: nat, retries: nat): Agent {
    a.(events := a.events + [ToolEvent(call, result, attempts, retries)])
  }

  function Told(a: Agent, call: ToolCall, result: Fields): Agent {
    a.(messages := a.messages + [ToolMessage(call.id, result)])
  }

  /** A failed attempt is repeated: the failure is retryable, attempts and calls are left, it is
      safe, and failures have not come too often. */
  predicate Again(env: Env, b: Agent, call: ToolCall, e: ToolError, attempt: nat) {
    && e.retryable && attempt < env.config.toolRetry.maxAttempts && RetryIsSafe(env.config, call.name, call.arguments)
    && b.control.consecutive < env.config.failureLimit && b.control.toolCalls < env.config.maxToolCalls
  }

  /** What comes of a failed attempt that is not repeated. */
  function FailurePhase(env: Env, b: Agent, call: ToolCall, result: Fields, e: ToolError, attempt: nat): (r: Phase<()>)
    requires attempt >= 1 && !Again(env, b, call, e, attempt)
    ensures r.Going? ==> r.agent.steps == b.steps
  {
    var noted := WithEvent(b, call, result, attempt, attempt - 1);
    var more := attempt < env.config.toolRetry.maxAttempts;
    if e.retryable && more && !RetryIsSafe(env.config, call.name, call.arguments) then
      Stopped(Stop(UnsafeRetryBlocked, Say(UnsafeRetry(call.name)), noted))
    else if b.control.consecutive >= env.config.failureLimit then
      Stopped(Stop(ConsecutiveFailureLimit, Say(ToolsFailedOften), noted))
    else if e.retryable && more then Stopped(Stop(ToolCallBudgetExhausted, Say(NoToolRetry), noted))
    else if e.retryable then
      Stopped(Stop(if e.kind == "tool_timeout" then ToolTimeout else ToolFailure,
                   Say(ToolExhausted(call.name, e.message)), noted))
    else if e.kind == "tool_timeout" then
      Stopped(Stop(ToolTimeout, Say(ToolTimedOut(call.name, e.message)), WithEvent(b, call, result, attempt, 0)))
    else Going(Told(noted, call, result), ())
  }

  /** The loop over the attempts of one call. */
  function CallPhase(env: Env, a: Agent, call: ToolCall, attempt: nat, recorded: bool, recheck: bool): (r: Phase<()>)
    requires 1 <= attempt <= env.config.toolRetry.maxAttempts
    ensures r.Going? ==> r.agent.steps == a.steps
    decreases env.config.toolRetry.maxAttempts - attempt
  {
    if recheck && a.control.toolCalls >= env.config.maxToolCalls then
      Stopped(Stop(ToolCallBudgetExhausted, Say(NoToolRetry), a))
    else
      var result := ResultOf(call.name, env.tools(a.log, call.name, call.arguments));
      var b := Try(env, a, call, attempt, recorded);
      if Ok(result) then Going(Told(WithEvent(b, call, result, attempt, attempt - 1), call, result), ())
      else if Again(env, b, call, ErrorOf(result), attempt) then
        CallPhase(env, b.(control := Retried(b.control, env.config.toolRetry, attempt + 1)),
                  call, attempt + 1, recorded, recheck)
      else FailurePhase(env, b, call, result, ErrorOf(result), attempt)
  }

  /** The calls of one turn, from the `i`-th on. */
  function CallsPhase(env: Env, a: Agent, calls: seq<ToolCall>, i: nat, recheck: bool): (r: Phase<()>)
    requires i <= |calls| && env.config.Valid()
    ensures r.Going? ==> r.agent.steps == a.steps
    decreases |calls| - i
  {
    if i == |calls| then Going(a, ())
    else if a.control.toolCalls >= env.config.maxToolCalls then
      Stopped(Stop(ToolCallBudgetExhausted, Say(ToolBudgetSpent), a))
    else if Repeats(a.control, CanonicalCall(calls[i].name, calls[i].arguments)) >= env.config.repeatedCallLimit then
      Stopped(Stop(RepeatedToolCall, Say(CallRepeated(calls[i].name)), a))
    else
      match CallPhase(env, a, calls[i], 1, false, recheck)
      case Going(b, _) => CallsPhase(env, b, calls, i + 1, recheck)
      case Stopped(result) => Stopped(result)
  }

  /** The outer loop. */
  function Turns(env: Env, a: Agent, recheck: bool): Result
    requires env.config.Valid()
    decreases env.config.maxSteps - a.steps
  {
    if a.steps >= env.config.maxSteps then Fell(a)
    else if a.control.modelCalls >= env.config.maxModelCalls then
      Stop(ModelCallBudgetExhausted, Say(ModelBudgetSpent), a)
    else
      match ProviderPhase(env, a.(steps := a.steps + 1), 1, recheck)
      case Stopped(result) => result
      case Going(b, turn) =>
        var heard := b.(messages := b.messages + [AssistantMessage(turn.content, turn.calls)]);
        if turn.calls == [] then Result(CompletedStatus, None, turn.content.GetOr(""), heard)
        else
          match CallsPhase(env, heard, turn.calls, 0, recheck)
          case Stopped(result) => result
          case Going(c, _) =>
            if c.steps >= env.config.maxSteps then
              Result(MaxStepsStatus, Some(StepBudgetExhausted), Say(StepsSpent(env.config.maxSteps)), c)
            else Turns(env, c, recheck)
  }

  /** `_run`. */
  function Run(env: Env): Result
    requires env.config.Valid()
  {
    Turns(env, Start(env), true)
  }
}
