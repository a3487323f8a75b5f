/** Whole runs of the single-agent loop: every phase keeps the books, every exit tells the
    truth, and the second looks at the budgets never matter. */
module AgentRuns {
  import opened Options
  import opened Json
  import opened Keys
  import opened Reliability
  import opened Sayings
  import opened AgentLoop
  import opened AgentLaws

  /** The transcript answers the events, in order. */
  ghost predicate Echoed(a: Agent) {
    Replies(a.messages) == Reported(a.events)
  }

  /** All events were answered, but perhaps the last. */
  ghost predicate NearlyEchoed(a: Agent) {
    Echoed(a) || (a.events != [] && Replies(a.messages) == Reported(a.events[..|a.events| - 1]))
  }

  /** What an exit's reason says of the state it leaves. */
  ghost predicate Truthful(env: Env, r: Result) {
    r.Result? &&
    var a, c := r.agent, r.agent.control;
    match r.reason
    case None =>
      && r.status == CompletedStatus && a.messages != []
      && a.messages[|a.messages| - 1] == AssistantMessage(LastContent(a.messages), [])
      && r.response == LastContent(a.messages).GetOr("")
    case Some(reason) =>
      match reason
      case ModelCallBudgetExhausted => r.status == ReliabilityStatus && c.modelCalls == env.config.maxModelCalls
      case ToolCallBudgetExhausted => r.status == ReliabilityStatus && c.toolCalls == env.config.maxToolCalls
      case StepBudgetExhausted => r.status == MaxStepsStatus && a.steps == env.config.maxSteps
      case ConsecutiveFailureLimit => r.status == ReliabilityStatus && c.consecutive == env.config.failureLimit
      case RepeatedToolCall => r.status == ReliabilityStatus
        && exists key :: OkEventsOf(a.events, key) == env.config.repeatedCallLimit
      case ProviderFailure => r.status == ProviderErrorStatus && LastFailure(c, true) && !Latest(c).retryable
      case ProviderTimeout => r.status == ProviderErrorStatus && Exhausted(env, c)
        && Latest(c).kind == "provider_timeout"
      case ProviderRetryExhausted => r.status == ProviderErrorStatus && Exhausted(env, c)
        && Latest(c).kind != "provider_timeout"
      case UnsafeRetryBlocked =>
        && r.status == ReliabilityStatus && LastFailed(a) && ErrorOf(LastEvent(a).result).retryable
        && !RetryIsSafe(env.config, LastEvent(a).call.name, LastEvent(a).call.arguments)
      case ToolTimeout => r.status == ReliabilityStatus && LastFailed(a)
        && ErrorOf(LastEvent(a).result).kind == "tool_timeout"
      case ToolFailure =>
        && r.status == ReliabilityStatus && LastFailed(a) && ErrorOf(LastEvent(a).result).retryable
        && LastEvent(a).attempts == env.config.toolRetry.maxAttempts
  }

  ghost function LastContent(ms: seq<Message>): Option<string> {
    if ms != [] && ms[|ms| - 1].AssistantMessage? then ms[|ms| - 1].content else None
  }

  ghost predicate LastFailure(c: Control, provider: bool) {
    c.failures != [] && c.failures[|c.failures| - 1].provider == provider
  }

  ghost function Latest(c: Control): Failure
    requires c.failures != []
  {
    c.failures[|c.failures| - 1]
  }

  ghost predicate Exhausted(env: Env, c: Control) {
    LastFailure(c, true) && Latest(c).retryable && Latest(c).attempt == env.config.providerRetry.maxAttempts
  }

  ghost predicate LastFailed(a: Agent) {
    a.events != [] && !Ok(a.events[|a.events| - 1].result)
  }

  ghost function LastEvent(a: Agent): ToolEvent
    requires a.events != []
  {
    a.events[|a.events| - 1]
  }

  /** What holds of every result. */
  ghost predicate Closed(env: Env, r: Result) {
    Truthful(env, r) && Kept(env, r.agent, 0, 0) && NearlyEchoed(r.agent)
  }

  // ---------------------------------------------------------------------
  // The provider phase

  lemma AskRecords(env: Env, a: Agent, attempt: nat)
    ensures var b := Ask(env, a, attempt);
            match env.provider(a.log, a.messages)
            case Completed(_) => true
            case Errored(kind, message, retryable) =>
              LastFailure(b.control, true)
              && Latest(b.control) == Failure(true, kind, message, retryable, attempt, None)
  {
  }

  lemma {:induction false} ProviderKept(env: Env, a: Agent, attempt: nat)
    requires env.config.Valid() && 1 <= attempt <= env.config.providerRetry.maxAttempts
    requires Kept(env, a, 1, 0) && Able(env, a) && Transcript(env, a.messages) && Echoed(a)
    requires a.control.modelCalls < env.config.maxModelCalls
    ensures var r := ProviderPhase(env, a, attempt, true);
            && r == ProviderPhase(env, a, attempt, false)
            && match r
               case Going(b, _) => Kept(env, b, 0, 0) && Able(env, b) && b.messages == a.messages && Echoed(b)
               case Stopped(result) => Closed(env, result)
    decreases env.config.providerRetry.maxAttempts - attempt
  {
    hide Logged, Accounted, Transcript, Ask, Say, Replies, Reported;
    AskKept(env, a, attempt);
    AskCounts(env, a, attempt);
    AskRecords(env, a, attempt);
    var b := Ask(env, a, attempt);
    ModelCallsBounded(env, b);
    match env.provider(a.log, a.messages)
    case Completed(turn) =>
    case Errored(kind, message, retryable) =>
      if
        && retryable && attempt < env.config.providerRetry.maxAttempts
        && Able(env, b) && b.control.modelCalls < env.config.maxModelCalls
      {
        RetryKept(env, b, 0, 0, env.config.providerRetry, attempt + 1);
        ProviderKept(env, b.(control := Retried(b.control, env.config.providerRetry, attempt + 1)), attempt + 1);
      }
  }

  lemma ModelCallsBounded(env: Env, a: Agent)
    requires Logged(env, a)
    ensures a.control.modelCalls <= env.config.maxModelCalls && a.control.toolCalls <= env.config.maxToolCalls
  {
  }

  // ---------------------------------------------------------------------
  // The tool phase

  ghost function ResultNow(env: Env, a: Agent, call: ToolCall): Fields {
    ResultOf(call.name, env.tools(a.log, call.name, call.arguments))
  }

  /** The call's event was added, and the transcript answers it with the event's result. */
  ghost predicate CallAnswered(a: Agent, call: ToolCall, b: Agent) {
    && |b.events| == |a.events| + 1 && b.events[..|a.events|] == a.events && b.events[|a.events|].call == call
    && b.messages == a.messages + [ToolMessage(call.id, b.events[|a.events|].result)]
  }

  lemma AnswerEchoes(a: Agent, call: ToolCall, b: Agent)
    requires Echoed(a) && CallAnswered(a, call, b)
    ensures Echoed(b)
  {
    RepliesSnoc(a.messages, ToolMessage(call.id, b.events[|a.events|].result));
    assert Reported(b.events) == Reported(a.events) + [(call.id, b.events[|a.events|].result)];
  }

  lemma EventNearlyEchoes(a: Agent, b: Agent, call: ToolCall, result: Fields, attempts: nat, retries: nat)
    requires Echoed(a) && b.messages == a.messages && b.events == a.events
    ensures NearlyEchoed(WithEvent(b, call, result, attempts, retries))
    ensures LastEvent(WithEvent(b, call, result, attempts, retries)) == ToolEvent(call, result, attempts, retries)
  {
    assert WithEvent(b, call, result, attempts, retries).events[..|a.events|] == a.events;
  }

  lemma {:induction false} CallKept(env: Env, a: Agent, call: ToolCall, attempt: nat)
    requires env.config.Valid() && 1 <= attempt <= env.config.toolRetry.maxAttempts
    requires Kept(env, a, 0, attempt - 1) && Able(env, a) && Echoed(a)
    requires a.control.toolCalls < env.config.maxToolCalls
    requires Repeats(a.control, CanonicalCall(call.name, call.arguments)) < env.config.repeatedCallLimit
    requires attempt > 1 ==> RetryIsSafe(env.config, call.name, call.arguments)
    ensures var r := CallPhase(env, a, call, attempt, false, true);
            && r == CallPhase(env, a, call, attempt, false, false)
            && match r
               case Going(b, _) => Kept(env, b, 0, 0) && Able(env, b) && CallAnswered(a, call, b)
               case Stopped(result) => Closed(env, result)
    decreases env.config.toolRetry.maxAttempts - attempt
  {
    hide Logged, Accounted, Try, Say, Replies, Reported, ResultOf, Ok, ErrorOf, CanonicalCall, RetryIsSafe,
         CallAnswered, Closed, WithEvent, Told, Config.Valid;
    var result := ResultNow(env, a, call);
    var b := Try(env, a, call, attempt, false);
    TryCounts(env, a, call, attempt, false);
    assert attempt - 1 < attempt <= env.config.toolRetry.maxAttempts;
    if Ok(result) {
      WorkedCall(env, a, call, attempt);
    } else {
      TryFails(env, a, call, attempt);
      var e := ErrorOf(result);
      var noted := WithEvent(b, call, result, attempt, attempt - 1);
      assert WitnessAt(b.log, ToolEvent(call, result, attempt, attempt - 1), |b.log| - 1);
      FailedCall(env, a, b, call, result, attempt);
      if e.retryable && attempt < env.config.toolRetry.maxAttempts && RetryIsSafe(env.config, call.name, call.arguments)
         && b.control.consecutive < env.config.failureLimit && b.control.toolCalls < env.config.maxToolCalls {
        RetryKept(env, b, -1, attempt, env.config.toolRetry, attempt + 1);
        var next := b.(control := Retried(b.control, env.config.toolRetry, attempt + 1));
        CallKept(env, next, call, attempt + 1);
        AnsweredLikewise(a, next, call);
      }
    }
  }

  lemma AnsweredLikewise(a: Agent, next: Agent, call: ToolCall)
    requires next.events == a.events && next.messages == a.messages
    ensures forall b :: CallAnswered(next, call, b) ==> CallAnswered(a, call, b)
  {
  }

  lemma WorkedCall(env: Env, a: Agent, call: ToolCall, attempt: nat)
    requires env.config.Valid() && attempt >= 1
    requires Kept(env, a, 0, attempt - 1) && Able(env, a) && a.control.toolCalls < env.config.maxToolCalls
    requires Repeats(a.control, CanonicalCall(call.name, call.arguments)) < env.config.repeatedCallLimit
    requires attempt > 1 ==> RetryIsSafe(env.config, call.name, call.arguments)
    requires Ok(ResultNow(env, a, call))
    ensures var b := Told(WithEvent(Try(env, a, call, attempt, false), call, ResultNow(env, a, call),
                                 attempt, attempt - 1),
                          call, ResultNow(env, a, call));
            Kept(env, b, 0, 0) && Able(env, b) && CallAnswered(a, call, b)
  {
    hide Logged, Accounted, Try, ResultOf, Ok, ErrorOf, CanonicalCall, RetryIsSafe;
    TryWorks(env, a, call, attempt);
    TryCounts(env, a, call, attempt, false);
    var b := WithEvent(Try(env, a, call, attempt, false), call, ResultNow(env, a, call), attempt, attempt - 1);
    ToldKeeps(env, b, call, ResultNow(env, a, call));
  }

  lemma ToldKeeps(env: Env, a: Agent, call: ToolCall, result: Fields)
    requires Kept(env, a, 0, 0)
    ensures Kept(env, Told(a, call, result), 0, 0)
  {
    hide Tally, Transcript, Waited, Guarded, OkEventsOf, OkEvents, AttemptSum, Genuine, HasWitness;
  }

  /** The exits that follow a failed attempt, and the answer to a failure that is not retried. */
  lemma FailedCall(env: Env, a: Agent, b: Agent, call: ToolCall, result: Fields, attempt: nat)
    requires env.config.Valid() && 1 <= attempt <= env.config.toolRetry.maxAttempts && Echoed(a)
    requires Kept(env, b, -1, attempt) && b.messages == a.messages && b.events == a.events && !Ok(result)
    requires attempt > 1 ==> RetryIsSafe(env.config, call.name, call.arguments)
    requires b.control.consecutive <= env.config.failureLimit
    requires b.log != [] && WitnessAt(b.log, ToolEvent(call, result, attempt, attempt - 1), |b.log| - 1)
    ensures var e, noted := ErrorOf(result), WithEvent(b, call, result, attempt, attempt - 1);
            && (b.control.consecutive < env.config.failureLimit ==>
                  && Kept(env, Told(noted, call, result), 0, 0) && Able(env, Told(noted, call, result))
                  && CallAnswered(a, call, Told(noted, call, result)))
            && (e.retryable && !RetryIsSafe(env.config, call.name, call.arguments) ==>
                  Closed(env, Stop(UnsafeRetryBlocked, Say(UnsafeRetry(call.name)), noted)))
            && (b.control.consecutive >= env.config.failureLimit ==>
                  Closed(env, Stop(ConsecutiveFailureLimit, Say(ToolsFailedOften), noted)))
            && (b.control.toolCalls >= env.config.maxToolCalls ==>
                  Closed(env, Stop(ToolCallBudgetExhausted, Say(NoToolRetry), noted)))
            && (e.retryable && attempt == env.config.toolRetry.maxAttempts ==>
                  Closed(env, Stop(if e.kind == "tool_timeout" then ToolTimeout else ToolFailure,
                                   Say(ToolExhausted(call.name, e.message)), noted)))
            && (!e.retryable && e.kind == "tool_timeout" ==>
                  Closed(env, Stop(ToolTimeout, Say(ToolTimedOut(call.name, e.message)),
                    WithEvent(b, call, result, attempt, 0))))
  {
    hide Logged, Accounted, Say, Replies, Reported, ResultOf, Ok, ErrorOf, CanonicalCall, RetryIsSafe,
         NearlyEchoed, Config.Valid, Witnessed;
    NoteFailure(env, b, call, result, attempt, attempt - 1);
    if !ErrorOf(result).retryable && ErrorOf(result).kind == "tool_timeout" {
      NoteFailure(env, b, call, result, attempt, 0);
    }
    EventNearlyEchoes(a, b, call, result, attempt, attempt - 1);
    EventNearlyEchoes(a, b, call, result, attempt, 0);
    ToldKeeps(env, WithEvent(b, call, result, attempt, attempt - 1), call, result);
    ModelCallsBounded(env, b);
  }

  // ---------------------------------------------------------------------
  // A turn's calls

  /** A transcript, an assistant message with calls, and the answers to the first `i` of them. */
  ghost predicate Answering(env: Env, ms: seq<Message>, base: seq<Message>, content: Option<string>,
                            calls: seq<ToolCall>, i: nat) {
    && Transcript(env, base) && i <= |calls| && calls != [] && |ms| == |base| + 1 + i
    && ms == base + [AssistantMessage(content, calls)] + ms[|base| + 1..]
    && Answers(calls[..i], ms[|base| + 1..])
  }

  lemma AnsweringGrows(env: Env, ms: seq<Message>, base: seq<Message>, content: Option<string>,
                       calls: seq<ToolCall>, i: nat, result: Fields)
    requires Answering(env, ms, base, content, calls, i) && i < |calls|
    ensures Answering(env, ms + [ToolMessage(calls[i].id, result)], base, content, calls, i + 1)
  {
    hide Transcript;
    var more := ms + [ToolMessage(calls[i].id, result)];
    assert more[|base| + 1..] == ms[|base| + 1..] + [ToolMessage(calls[i].id, result)];
  }

  lemma AnsweringEnds(env: Env, ms: seq<Message>, base: seq<Message>, content: Option<string>, calls: seq<ToolCall>)
    requires Answering(env, ms, base, content, calls, |calls|)
    ensures Transcript(env, ms)
  {
    var replies := ms[|base| + 1..];
    assert calls[..|calls|] == calls;
    BlocksAppend(base[2..], content, calls, replies);
    assert ms[2..] == base[2..] + [AssistantMessage(content, calls)] + replies;
  }

  lemma StopHere(env: Env, a: Agent, reason: Reason, response: string)
    requires Kept(env, a, 0, 0) && Echoed(a)
    requires || (reason == ModelCallBudgetExhausted && a.control.modelCalls == env.config.maxModelCalls)
             || (reason == ToolCallBudgetExhausted && a.control.toolCalls == env.config.maxToolCalls)
             || (reason == RepeatedToolCall && exists key :: OkEventsOf(a.events, key) == env.config.repeatedCallLimit)
    ensures Closed(env, Stop(reason, response, a))
  {
    hide Kept, OkEventsOf, Reported, Replies;
  }

  lemma RepeatsAreEvents(env: Env, a: Agent, key: string)
    requires Kept(env, a, 0, 0) && Repeats(a.control, key) >= env.config.repeatedCallLimit
    ensures exists key :: OkEventsOf(a.events, key) == env.config.repeatedCallLimit
  {
    hide Logged, OkEventsOf, OkEvents, AttemptSum, Tally, Guarded;
    assert OkEventsOf(a.events, key) == env.config.repeatedCallLimit;
  }

  lemma CallBudget(env: Env, a: Agent)
    requires Kept(env, a, 0, 0)
    ensures a.control.toolCalls <= env.config.maxToolCalls && a.control.modelCalls <= env.config.maxModelCalls
  {
    hide Accounted;
    ModelCallsBounded(env, a);
  }

  lemma {:induction false} CallsKept(env: Env, a: Agent, base: seq<Message>, content: Option<string>,
                                     calls: seq<ToolCall>, i: nat)
    requires env.config.Valid() && i <= |calls|
    requires Kept(env, a, 0, 0) && Able(env, a) && Echoed(a) && Answering(env, a.messages, base, content, calls, i)
    ensures var r := CallsPhase(env, a, calls, i, true);
            && r == CallsPhase(env, a, calls, i, false)
            && match r
               case Going(b, _) => Kept(env, b, 0, 0) && Able(env, b) && Echoed(b) && Transcript(env, b.messages)
               case Stopped(result) => Closed(env, result)
    decreases |calls| - i
  {
    hide Kept, Transcript, Answering, Say, Replies, Reported, CanonicalCall, CallAnswered, Closed,
         Config.Valid, CallPhase, Echoed;
    if i == |calls| {
      AnsweringEnds(env, a.messages, base, content, calls);
    } else {
      var key := CanonicalCall(calls[i].name, calls[i].arguments);
      CallBudget(env, a);
      if a.control.toolCalls >= env.config.maxToolCalls {
        StopHere(env, a, ToolCallBudgetExhausted, Say(ToolBudgetSpent));
      } else if Repeats(a.control, key) >= env.config.repeatedCallLimit {
        RepeatsAreEvents(env, a, key);
        StopHere(env, a, RepeatedToolCall, Say(CallRepeated(calls[i].name)));
      } else {
        AttemptsAllowed(env.config);
        CallKept(env, a, calls[i], 1);
        match CallPhase(env, a, calls[i], 1, false, true)
        case Going(b, _) =>
          AnswerEchoes(a, calls[i], b);
          AnswerContinues(env, a, b, base, content, calls, i);
          CallsKept(env, b, base, content, calls, i + 1);
        case Stopped(_) =>
      }
    }
  }

  lemma AttemptsAllowed(config: Config)
    requires config.Valid()
    ensures config.toolRetry.maxAttempts >= 1 && config.providerRetry.maxAttempts >= 1
    ensures config.failureLimit >= 1 && config.maxSteps >= 1
  {
  }

  lemma AnswerContinues(env: Env, a: Agent, b: Agent, base: seq<Message>, content: Option<string>,
                        calls: seq<ToolCall>, i: nat)
    requires i < |calls| && CallAnswered(a, calls[i], b) && Answering(env, a.messages, base, content, calls, i)
    ensures Answering(env, b.messages, base, content, calls, i + 1)
  {
    hide Answering;
    AnsweringGrows(env, a.messages, base, content, calls, i, b.events[|a.events|].result);
  }

  // ---------------------------------------------------------------------
  // The outer loop

  lemma AssistantKeeps(env: Env, b: Agent, turn: Turn)
    requires Kept(env, b, 0, 0) && Able(env, b) && Echoed(b)
    ensures var heard := b.(messages := b.messages + [AssistantMessage(turn.content, turn.calls)]);
            Kept(env, heard, 0, 0) && Able(env, heard) && Echoed(heard)
  {
    hide Logged, Accounted, Replies, Reported, HasWitness;
    var heard := b.(messages := b.messages + [AssistantMessage(turn.content, turn.calls)]);
    RepliesSnoc(b.messages, AssistantMessage(turn.content, turn.calls));
    LoggedKept(env, b, heard);
    AccountedKept(env.config, b, heard);
  }

  lemma AccountedKept(config: Config, a: Agent, b: Agent)
    requires Accounted(config, a, 0) && b.events == a.events && b.control == a.control && b.log == a.log
    ensures Accounted(config, b, 0)
  {
    hide Guarded, OkEventsOf, OkEvents, AttemptSum, Tally;
  }

  lemma StepBegins(env: Env, a: Agent)
    requires Kept(env, a, 0, 0) && Able(env, a) && Echoed(a) && a.steps < env.config.maxSteps
    ensures var b := a.(steps := a.steps + 1);
            Kept(env, b, 1, 0) && Able(env, b) && Echoed(b)
  {
    hide Logged, Accounted, Replies, Reported, HasWitness;
    LoggedKept(env, a, a.(steps := a.steps + 1));
    AccountedKept(env.config, a, a.(steps := a.steps + 1));
  }

  lemma StepsEnd(env: Env, a: Agent)
    requires Kept(env, a, 0, 0) && Echoed(a) && a.steps >= env.config.maxSteps
    ensures Closed(env, Result(MaxStepsStatus, Some(StepBudgetExhausted), Say(StepsSpent(env.config.maxSteps)), a))
  {
    hide Logged, Accounted, Replies, Reported, Say;
  }

  lemma CompletesHere(env: Env, a: Agent, content: Option<string>)
    requires Kept(env, a, 0, 0) && Echoed(a) && a.messages != []
    requires a.messages[|a.messages| - 1] == AssistantMessage(content, [])
    ensures Closed(env, Result(CompletedStatus, None, content.GetOr(""), a))
  {
    hide Kept, Replies, Reported;
  }

  lemma TurnAnswering(env: Env, base: seq<Message>, content: Option<string>, calls: seq<ToolCall>)
    requires Transcript(env, base) && calls != []
    ensures Answering(env, base + [AssistantMessage(content, calls)], base, content, calls, 0)
  {
    hide Transcript;
  }

  lemma {:induction false} TurnsKept(env: Env, a: Agent)
    requires env.config.Valid() && a.steps < env.config.maxSteps
    requires Kept(env, a, 0, 0) && Able(env, a) && Echoed(a) && Transcript(env, a.messages)
    ensures Turns(env, a, true) == Turns(env, a, false)
    ensures Closed(env, Turns(env, a, true))
    decreases env.config.maxSteps - a.steps
  {
    hide Kept, Able, Echoed, Transcript, Answering, Say, Replies, Reported, Closed, Config.Valid,
         ProviderPhase, CallsPhase;
    CallBudget(env, a);
    AttemptsAllowed(env.config);
    if a.control.modelCalls >= env.config.maxModelCalls {
      StopHere(env, a, ModelCallBudgetExhausted, Say(ModelBudgetSpent));
    } else {
      var begun := a.(steps := a.steps + 1);
      StepBegins(env, a);
      ProviderKept(env, begun, 1);
      match ProviderPhase(env, begun, 1, true)
      case Stopped(_) =>
      case Going(b, turn) =>
        AssistantKeeps(env, b, turn);
        var heard := b.(messages := b.messages + [AssistantMessage(turn.content, turn.calls)]);
        if turn.calls == [] {
          CompletesHere(env, heard, turn.content);
        } else {
          TurnAnswering(env, b.messages, turn.content, turn.calls);
          CallsKept(env, heard, b.messages, turn.content, turn.calls, 0);
          match CallsPhase(env, heard, turn.calls, 0, true)
          case Stopped(_) =>
          case Going(c, _) =>
            if c.steps >= env.config.maxSteps {
              StepsEnd(env, c);
            } else {
              TurnsKept(env, c);
            }
        }
    }
  }

  lemma StartKept(env: Env)
    requires env.config.Valid()
    ensures Kept(env, Start(env), 0, 0) && Able(env, Start(env))
    ensures Echoed(Start(env)) && Transcript(env, Start(env).messages)
  {
    RepliesOfStart(env);
  }

  lemma RepliesOfStart(env: Env)
    ensures Replies(Start(env).messages) == []
  {
    RepliesSnoc([], SystemMessage(env.system));
    RepliesSnoc([SystemMessage(env.system)], UserMessage(env.task));
    assert [] + [SystemMessage(env.system)] == [SystemMessage(env.system)];
    assert Start(env).messages == [SystemMessage(env.system)] + [UserMessage(env.task)];
  }

  /** Every run ends, in a result whose books are kept and whose reason is true; and it would end
      the same without the second looks at the budgets. */
  lemma RunIsClosed(env: Env)
    requires env.config.Valid()
    ensures Closed(env, Run(env)) && Run(env).Result?
    ensures Run(env) == Turns(env, Start(env), false)
  {
    hide Kept, Echoed, Transcript, Turns, Config.Valid, NearlyEchoed;
    AttemptsAllowed(env.config);
    StartKept(env);
    TurnsKept(env, Start(env));
  }

  // ---------------------------------------------------------------------
  // The laws of a finished run

  /** Calls against steps, events and retries; attempts against calls; and failures, turns and
      successful events against calls. */
  lemma AccountingLaw(env: Env)
    requires env.config.Valid()
    ensures var a := Run(env).agent;
            && a.control.modelCalls + a.control.toolCalls == a.steps + |a.events| + a.control.retries
            && AttemptSum(a.events) == a.control.toolCalls
            && |a.control.failures| + Tally(a.log).turns + OkEvents(a.events)
               == a.control.modelCalls + a.control.toolCalls
  {
    hide Run, Config.Valid, NearlyEchoed, Truthful, Tally, OkEvents, AttemptSum, Guarded, OkEventsOf, Transcript;
    RunIsClosed(env);
    AttemptsAddUp(Run(env).agent.log);
  }

  lemma BudgetsHold(env: Env)
    requires env.config.Valid()
    ensures var a := Run(env).agent;
            && a.steps <= env.config.maxSteps
            && a.control.modelCalls == Tally(a.log).asks <= env.config.maxModelCalls
            && a.control.toolCalls == Tally(a.log).tries <= env.config.maxToolCalls
  {
    hide Run, Config.Valid, NearlyEchoed, Truthful, Tally, Accounted, Transcript;
    RunIsClosed(env);
  }

  /** At every provider call the messages are the prompt, the task, and complete blocks. */
  lemma ProviderSeesTranscripts(env: Env, k: nat)
    requires env.config.Valid() && k < |Run(env).agent.log| && Run(env).agent.log[k].Asked?
    ensures Transcript(env, Run(env).agent.log[k].messages)
  {
    hide Run, Config.Valid, NearlyEchoed, Truthful, Tally, Accounted, Transcript;
    RunIsClosed(env);
  }

  /** No attempt starts at the failure limit, and the counter is the length of the last run of
      failed attempts. */
  lemma FailureRunsAreShort(env: Env)
    requires env.config.Valid()
    ensures var a := Run(env).agent;
            && a.control.consecutive == Tally(a.log).trailing
            && forall k | 0 <= k < |a.log| :: Tally(a.log[..k]).trailing < env.config.failureLimit
  {
    hide Run, Config.Valid, NearlyEchoed, Truthful, Tally, Accounted, Transcript;
    RunIsClosed(env);
  }

  /** Only safe calls were retried, and no call succeeded more often than its limit. */
  lemma CallsAreLimited(env: Env, key: string)
    requires env.config.Valid()
    ensures var a := Run(env).agent;
            && (forall i | 0 <= i < |a.events| && a.events[i].attempts > 1 ::
                  RetryIsSafe(env.config, a.events[i].call.name, a.events[i].call.arguments))
            && OkEventsOf(a.events, key) == Repeats(a.control, key) <= env.config.repeatedCallLimit
  {
    hide Run, Config.Valid, NearlyEchoed, Truthful, Tally, OkEvents, AttemptSum, OkEventsOf, Logged, RetryIsSafe;
    RunIsClosed(env);
  }

  // ---------------------------------------------------------------------
  // Sleep

  function Total(delays: seq<real>): real {
    if delays == [] then 0.0 else Total(delays[..|delays| - 1]) + delays[|delays| - 1]
  }

  lemma {:induction false} TotalBounded(delays: seq<real>, cap: real)
    requires forall i | 0 <= i < |delays| :: delays[i] <= cap
    ensures Total(delays) <= |delays| as real * cap
  {
    if delays != [] {
      TotalBounded(delays[..|delays| - 1], cap);
      OneMore((|delays| - 1) as real, cap);
    }
  }

  function LargerCap(config: Config): real {
    if config.providerRetry.maxBackoff >= config.toolRetry.maxBackoff then config.providerRetry.maxBackoff
    else config.toolRetry.maxBackoff
  }

  /** The sleep of a whole run. */
  lemma SleepIsBounded(env: Env)
    requires env.config.Valid()
    ensures var c := Run(env).agent.control;
            |c.delays| == c.retries && Total(c.delays) <= c.retries as real * LargerCap(env.config)
  {
    hide Run, Config.Valid, NearlyEchoed, Truthful, Kept, Total, LargerCap;
    RunIsClosed(env);
    KeptIsWaited(env, Run(env).agent);
    TotalBounded(Run(env).agent.control.delays, LargerCap(env.config));
  }

  lemma KeptIsWaited(env: Env, a: Agent)
    requires Kept(env, a, 0, 0)
    ensures |a.control.delays| == a.control.retries
    ensures forall i | 0 <= i < |a.control.delays| :: a.control.delays[i] <= LargerCap(env.config)
  {
    hide Accounted, Tally, Transcript;
  }

  lemma TotalSnoc(delays: seq<real>, d: real)
    ensures Total(delays + [d]) == Total(delays) + d
  {
    assert (delays + [d])[..|delays|] == delays;
  }

  ghost function AgentOf<T>(r: Phase<T>): Agent {
    match r
    case Going(a, _) => a
    case Stopped(result) => result.agent
  }

  /** A provider turn of `k` calls sleeps exactly `TotalDelay` of its policy. */
  lemma {:induction false} ProviderSleep(env: Env, a: Agent, attempt: nat)
    requires 1 <= attempt <= env.config.providerRetry.maxAttempts
    ensures var b := AgentOf(ProviderPhase(env, a, attempt, false));
            && b.control.modelCalls > a.control.modelCalls
            && Total(b.control.delays) - Total(a.control.delays) ==
               TotalDelay(env.config.providerRetry, attempt - 1 + b.control.modelCalls - a.control.modelCalls)
               - TotalDelay(env.config.providerRetry, attempt)
    decreases env.config.providerRetry.maxAttempts - attempt
  {
    hide Ask, Say, Total, Delay;
    var b := Ask(env, a, attempt);
    AskCounts(env, a, attempt);
    match env.provider(a.log, a.messages)
    case Completed(_) =>
    case Errored(_, _, retryable) =>
      if retryable && attempt < env.config.providerRetry.maxAttempts && b.control.consecutive < env.config.failureLimit
         && b.control.modelCalls < env.config.maxModelCalls {
        TotalSnoc(b.control.delays, Delay(env.config.providerRetry, attempt + 1));
        ProviderSleep(env, b.(control := Retried(b.control, env.config.providerRetry, attempt + 1)), attempt + 1);
      }
  }

  /** And so does a tool call. */
  lemma {:induction false} CallSleep(env: Env, a: Agent, call: ToolCall, attempt: nat)
    requires 1 <= attempt <= env.config.toolRetry.maxAttempts
    ensures var b := AgentOf(CallPhase(env, a, call, attempt, false, false));
            && b.control.toolCalls > a.control.toolCalls
            && Total(b.control.delays) - Total(a.control.delays) ==
               TotalDelay(env.config.toolRetry, attempt - 1 + b.control.toolCalls - a.control.toolCalls)
               - TotalDelay(env.config.toolRetry, attempt)
    decreases env.config.toolRetry.maxAttempts - attempt
  {
    hide Try, Say, Total, Delay, ResultOf, Ok, ErrorOf, RetryIsSafe;
    var b := Try(env, a, call, attempt, false);
    var result := ResultNow(env, a, call);
    TryCounts(env, a, call, attempt, false);
    if !Ok(result) && ErrorOf(result).retryable && attempt < env.config.toolRetry.maxAttempts
       && RetryIsSafe(env.config, call.name, call.arguments)
       && b.control.consecutive < env.config.failureLimit && b.control.toolCalls < env.config.maxToolCalls {
      TotalSnoc(b.control.delays, Delay(env.config.toolRetry, attempt + 1));
      CallSleep(env, b.(control := Retried(b.control, env.config.toolRetry, attempt + 1)), call, attempt + 1);
    }
  }
}
