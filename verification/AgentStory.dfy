/** The history of a run, attempt by attempt: what follows what, and what ends it, read off the
    replies of the provider and the tools themselves. */
module AgentStory {
  import opened Options
  import opened Json
  import opened Keys
  import opened Reliability
  import opened Sayings
  import opened AgentLoop
  import opened AgentReplies
  import opened AgentLaws
  import opened AgentRuns
  import opened AgentRetries

  // ---------------------------------------------------------------------
  // The history

  /** The attempt calls for another one. */
  ghost predicate Demands(x: Attempt) {
    match x
    case Asked(_, Completed(_)) => false
    case Asked(_, Errored(_, _, retryable)) => retryable
    case Tried(_, reply) => Passing(reply)
  }

  /** Which attempt of its turn or call the `i`-th of the history is. */
  ghost function Place(log: seq<Attempt>, i: nat): nat
    requires i < |log|
  {
    if i > 0 && Demands(log[i - 1]) then Place(log, i - 1) + 1 else 1
  }

  /** `y` can come after `x`: the provider asked again for the same turn, the first call of a turn,
      the same call again, or whatever comes after a call that is done with. */
  ghost predicate Follows(x: Attempt, y: Attempt) {
    match x
    case Asked(messages, Completed(turn)) => turn.calls != [] && y.Tried? && y.call == turn.calls[0]
    case Asked(messages, Errored(_, _, retryable)) => retryable && y.Asked? && y.messages == messages
    case Tried(call, reply) => if Passing(reply) then y.Tried? && y.call == call else !Late(reply)
  }

  /** A demand after `n` attempts may be met. */
  ghost predicate MayRepeat(config: Config, x: Attempt, n: nat) {
    match x
    case Asked(_, _) => n < config.providerRetry.maxAttempts
    case Tried(call, _) => n < config.toolRetry.maxAttempts && SafeToRepeat(config, call)
  }

  ghost predicate Orderly(config: Config, log: seq<Attempt>) {
    forall i: nat | i + 1 < |log| ::
      Follows(log[i], log[i + 1]) && (Demands(log[i]) ==> MayRepeat(config, log[i], Place(log, i)))
  }

  /** Event `e` reports attempt `k`, after as many attempts as that made. */
  ghost predicate ReportsAt(log: seq<Attempt>, e: ToolEvent, k: nat) {
    && k < |log| && log[k].Tried? && log[k].call == e.call && e.attempts == Place(log, k)
    && Tells(e.call.name, log[k].reply, e.result)
  }

  /** The event reports an attempt that called for no other. */
  ghost predicate Settled(log: seq<Attempt>, e: ToolEvent) {
    exists k: nat :: ReportsAt(log, e, k) && !Passing(log[k].reply)
  }

  ghost predicate AllSettled(a: Agent) {
    forall i | 0 <= i < |a.events| :: Settled(a.log, a.events[i])
  }

  /** Only the last event may report an attempt that called for another, the last one made. */
  ghost predicate NearlySettled(a: Agent) {
    forall i | 0 <= i < |a.events| ::
      Settled(a.log, a.events[i]) || (i + 1 == |a.events| && a.log != [] && ReportsAt(a.log, a.events[i], |a.log| - 1))
  }

  /** Every call that is done with has its event. */
  ghost predicate AllReported(a: Agent) {
    forall k: nat | k < |a.log| && a.log[k].Tried? && !Passing(a.log[k].reply) :: Reported(a, k)
  }

  ghost predicate Reported(a: Agent, k: nat) {
    exists i | 0 <= i < |a.events| :: ReportsAt(a.log, a.events[i], k)
  }

  /** What is recorded of an attempt, the `n`-th of its turn or call: nothing, or its failure. */
  ghost function DetailOf(x: Attempt, n: nat): seq<Failure> {
    match x
    case Asked(_, Completed(_)) => []
    case Asked(_, Errored(kind, message, retryable)) => [Failure(true, kind, message, retryable, n, None)]
    case Tried(call, reply) =>
      if Answered(reply) then []
      else [Failure(false, Kind(reply), Remark(call.name, reply), Passing(reply), n, Some(call.name))]
  }

  ghost function Details(log: seq<Attempt>): seq<Failure> {
    if log == [] then []
    else Details(log[..|log| - 1]) + DetailOf(log[|log| - 1], Place(log, |log| - 1))
  }

  /** The recorded failures are the failed attempts, in order. */
  ghost predicate Detailed(a: Agent) {
    a.control.failures == Details(a.log)
  }

  // ---------------------------------------------------------------------
  // How a run ends

  /** Budgets that end a run between calls. */
  ghost predicate EndsBetween(config: Config, r: Result)
    requires r.Result?
  {
    || (&& r.reason == Some(ToolCallBudgetExhausted)
        && r.response == "Agent stopped before another tool execution because its tool-call budget was exhausted.")
    || (&& r.reason == Some(RepeatedToolCall)
        && exists tool :: r.response == "Blocked repeated tool call: " + tool + " with identical arguments.")
    || (&& r.reason == Some(StepBudgetExhausted)
        && r.response == "Agent stopped after reaching the maximum of " + Decimal(config.maxSteps) + " steps.")
    || (&& r.reason == Some(ModelCallBudgetExhausted)
        && r.response == "Agent stopped before another provider call because its model-call budget was exhausted.")
  }

  /** Why a run ends, and what it says, when its last attempt is this failure of the provider, the
      `n`-th. */
  ghost function ProviderEnd(config: Config, kind: string, message: string, retryable: bool, n: nat,
                             failures: nat): (Reason, string)
  {
    if !retryable then (ProviderFailure, message)
    else if n >= config.providerRetry.maxAttempts then
      (if kind == "provider_timeout" then ProviderTimeout else ProviderRetryExhausted,
       "Provider retries were exhausted: " + message)
    else if failures >= config.failureLimit then
      (ConsecutiveFailureLimit, "Agent stopped after consecutive provider failures reached the configured limit.")
    else
      (ModelCallBudgetExhausted,
       "Agent stopped before retrying the provider because its model-call budget was exhausted.")
  }

  /** The same for a tool's failure that may pass, or that ends the run for another reason. */
  ghost function ToolEnd(config: Config, call: ToolCall, reply: ToolReply, n: nat, failures: nat): (Reason, string) {
    if Passing(reply) && n < config.toolRetry.maxAttempts && !SafeToRepeat(config, call) then
      (UnsafeRetryBlocked,
       "Automatic retry of side-effecting tool " + call.name +
       " was blocked because it has no strong idempotency guarantee.")
    else if failures >= config.failureLimit then
      (ConsecutiveFailureLimit, "Agent stopped after consecutive execution failures reached the configured limit.")
    else if Passing(reply) && n < config.toolRetry.maxAttempts then
      (ToolCallBudgetExhausted, "Agent stopped before retrying a tool because its tool-call budget was exhausted.")
    else if Passing(reply) then
      (if Late(reply) then ToolTimeout else ToolFailure,
       "Tool " + call.name + " failed after its retry limit was exhausted: " + Remark(call.name, reply))
    else (ToolTimeout, "Tool " + call.name + " timed out: " + Remark(call.name, reply))
  }

  /** The result is the one its last attempt calls for. */
  ghost predicate EndsRight(config: Config, r: Result) {
    var log, failures := r.agent.log, r.agent.control.consecutive;
    r.Result? && log != [] &&
    var n := Place(log, |log| - 1);
    match log[|log| - 1]
    case Asked(_, Completed(turn)) =>
      if turn.calls == [] then r.reason == None && r.response == turn.content.GetOr("")
      else EndsBetween(config, r) && r.reason in {Some(ToolCallBudgetExhausted), Some(RepeatedToolCall)}
    case Asked(_, Errored(kind, message, retryable)) =>
      Ends(r, ProviderEnd(config, kind, message, retryable, n, failures))
    case Tried(call, reply) =>
      if Answered(reply) || (!Passing(reply) && !Late(reply) && failures < config.failureLimit) then
        EndsBetween(config, r)
      else Ends(r, ToolEnd(config, call, reply, n, failures))
  }

  ghost predicate Ends(r: Result, end: (Reason, string))
    requires r.Result?
  {
    r.reason == Some(end.0) && r.response == end.1
  }

  // The sentences of the loop

  predicate StopsBetween(config: Config, tool: string, r: Result)
    requires r.Result?
  {
    || (r.reason == Some(ToolCallBudgetExhausted) && r.response == Say(ToolBudgetSpent))
    || (r.reason == Some(RepeatedToolCall) && r.response == Say(CallRepeated(tool)))
    || (r.reason == Some(StepBudgetExhausted) && r.response == Say(StepsSpent(config.maxSteps)))
    || (r.reason == Some(ModelCallBudgetExhausted) && r.response == Say(ModelBudgetSpent))
  }

  lemma BetweenSaid(config: Config, tool: string)
    ensures forall r: Result | r.Result? && StopsBetween(config, tool, r) :: EndsBetween(config, r)
  {
    hide Say;
    BudgetSaid(tool);
    StepsSaid(config.maxSteps);
  }

  lemma BudgetSaid(tool: string)
    ensures Say(ToolBudgetSpent) ==
            "Agent stopped before another tool execution because its tool-call budget was exhausted."
    ensures Say(CallRepeated(tool)) == "Blocked repeated tool call: " + tool + " with identical arguments."
  {
  }

  lemma StepsSaid(steps: nat)
    ensures Say(StepsSpent(steps)) == "Agent stopped after reaching the maximum of " + Decimal(steps) + " steps."
    ensures Say(ModelBudgetSpent) ==
            "Agent stopped before another provider call because its model-call budget was exhausted."
  {
  }

  lemma ProviderSaid(config: Config, kind: string, message: string, retryable: bool, n: nat, failures: nat)
    ensures ProviderEnd(config, kind, message, retryable, n, failures) ==
            if !retryable then (ProviderFailure, message)
            else if n >= config.providerRetry.maxAttempts then
              (if kind == "provider_timeout" then ProviderTimeout else ProviderRetryExhausted,
               Say(ProviderExhausted(message)))
            else if failures >= config.failureLimit then (ConsecutiveFailureLimit, Say(ProviderFailedOften))
            else (ModelCallBudgetExhausted, Say(NoProviderRetry))
  {
    hide Say;
    ExhaustionSaid(message);
    ProviderStopSaid();
  }

  lemma ExhaustionSaid(message: string)
    ensures Say(ProviderExhausted(message)) == "Provider retries were exhausted: " + message
  {
  }

  lemma ProviderStopSaid()
    ensures Say(ProviderFailedOften) ==
            "Agent stopped after consecutive provider failures reached the configured limit."
    ensures Say(NoProviderRetry) ==
            "Agent stopped before retrying the provider because its model-call budget was exhausted."
  {
  }

  lemma ToolSaid(config: Config, call: ToolCall, reply: ToolReply, n: nat, failures: nat)
    ensures ToolEnd(config, call, reply, n, failures) ==
            if Passing(reply) && n < config.toolRetry.maxAttempts && !SafeToRepeat(config, call) then
              (UnsafeRetryBlocked, Say(UnsafeRetry(call.name)))
            else if failures >= config.failureLimit then (ConsecutiveFailureLimit, Say(ToolsFailedOften))
            else if Passing(reply) && n < config.toolRetry.maxAttempts then (ToolCallBudgetExhausted, Say(NoToolRetry))
            else if Passing(reply) then
              (if Late(reply) then ToolTimeout else ToolFailure,
               Say(ToolExhausted(call.name, Remark(call.name, reply))))
            else (ToolTimeout, Say(ToolTimedOut(call.name, Remark(call.name, reply))))
  {
    hide Say, Passing, Late, SafeToRepeat, Remark;
    RetrySaid(call.name);
    FailureSaid(call.name, Remark(call.name, reply));
  }

  lemma RetrySaid(tool: string)
    ensures Say(UnsafeRetry(tool)) ==
            "Automatic retry of side-effecting tool " + tool +
            " was blocked because it has no strong idempotency guarantee."
    ensures Say(NoToolRetry) == "Agent stopped before retrying a tool because its tool-call budget was exhausted."
  {
  }

  lemma FailureSaid(tool: string, message: string)
    ensures Say(ToolsFailedOften) ==
            "Agent stopped after consecutive execution failures reached the configured limit."
    ensures Say(ToolExhausted(tool, message)) ==
            "Tool " + tool + " failed after its retry limit was exhausted: " + message
    ensures Say(ToolTimedOut(tool, message)) == "Tool " + tool + " timed out: " + message
  {
  }

  // ---------------------------------------------------------------------
  // One more attempt

  lemma {:induction false} PlaceStays(log: seq<Attempt>, more: seq<Attempt>, i: nat)
    requires log <= more && i < |log|
    ensures Place(more, i) == Place(log, i)
  {
    hide Demands;
    if i > 0 {
      PlaceStays(log, more, i - 1);
    }
  }

  lemma PlaceUnfolds(log: seq<Attempt>, i: nat)
    requires i < |log|
    ensures Place(log, i) == if i > 0 && Demands(log[i - 1]) then Place(log, i - 1) + 1 else 1
  {
  }

  /** `y` may come next, as the `n`-th attempt. */
  ghost predicate ComesNext(config: Config, log: seq<Attempt>, y: Attempt, n: nat) {
    if log == [] then n == 1
    else
      var i := |log| - 1;
      && Follows(log[i], y)
      && if Demands(log[i]) then n == Place(log, i) + 1 && MayRepeat(config, log[i], n - 1) else n == 1
  }

  lemma OneMore(config: Config, log: seq<Attempt>, y: Attempt, n: nat)
    requires Orderly(config, log) && ComesNext(config, log, y, n)
    ensures Orderly(config, log + [y]) && Place(log + [y], |log|) == n
  {
    hide Follows, Demands, MayRepeat, Place;
    var more := log + [y];
    PlaceUnfolds(more, |log|);
    forall i: nat | i + 1 < |more|
      ensures Follows(more[i], more[i + 1]) && (Demands(more[i]) ==> MayRepeat(config, more[i], Place(more, i)))
    {
      PlaceStays(log, more, i);
      if i + 1 < |log| {
        assert more[i + 1] == log[i + 1];
      }
    }
    if log != [] {
      PlaceStays(log, more, |log| - 1);
    }
  }

  lemma ReportStays(log: seq<Attempt>, more: seq<Attempt>, e: ToolEvent, k: nat)
    requires log <= more && ReportsAt(log, e, k)
    ensures ReportsAt(more, e, k)
  {
    hide Tells;
    PlaceStays(log, more, k);
  }

  /** The history grew by an attempt that is not yet reported. */
  lemma EventsStay(a: Agent, b: Agent, y: Attempt)
    requires AllSettled(a) && AllReported(a) && b.log == a.log + [y] && b.events == a.events
    ensures AllSettled(b)
    ensures y.Tried? ==> Passing(y.reply) ==> AllReported(b)
    ensures y.Asked? ==> AllReported(b)
    ensures forall k: nat | k < |a.log| && a.log[k].Tried? && !Passing(a.log[k].reply) :: Reported(b, k)
  {
    hide ReportsAt, Passing;
    forall i | 0 <= i < |b.events| ensures Settled(b.log, b.events[i]) {
      assert Settled(a.log, a.events[i]);
      var k := SettledAt(a.log, a.events[i]);
      ReportStays(a.log, b.log, a.events[i], k);
    }
    forall k: nat | k < |a.log| && a.log[k].Tried? && !Passing(a.log[k].reply) ensures Reported(b, k) {
      assert Reported(a, k);
      var i :| 0 <= i < |a.events| && ReportsAt(a.log, a.events[i], k);
      ReportStays(a.log, b.log, a.events[i], k);
    }
  }

  lemma SettledAt(log: seq<Attempt>, e: ToolEvent) returns (k: nat)
    requires Settled(log, e)
    ensures k < |log| && log[k].Tried? && ReportsAt(log, e, k) && !Passing(log[k].reply)
  {
    k :| ReportsAt(log, e, k) && !Passing(log[k].reply);
  }

  /** The last attempt is reported. */
  lemma EventAdded(b: Agent, c: Agent, e: ToolEvent)
    requires c.log == b.log && c.events == b.events + [e] && b.log != [] && b.log[|b.log| - 1].Tried?
    requires AllSettled(b) && ReportsAt(b.log, e, |b.log| - 1)
    requires forall k: nat | k + 1 < |b.log| && b.log[k].Tried? && !Passing(b.log[k].reply) :: Reported(b, k)
    ensures NearlySettled(c) && AllReported(c)
    ensures !Passing(b.log[|b.log| - 1].reply) ==> AllSettled(c)
  {
    hide ReportsAt, Passing;
    forall i | 0 <= i < |c.events|
      ensures i < |b.events| ==> Settled(c.log, c.events[i])
    {
      if i < |b.events| {
        assert Settled(b.log, b.events[i]);
      }
    }
    forall k: nat | k < |c.log| && c.log[k].Tried? && !Passing(c.log[k].reply) ensures Reported(c, k) {
      if k + 1 < |b.log| {
        assert Reported(b, k);
        var i :| 0 <= i < |b.events| && ReportsAt(b.log, b.events[i], k);
        assert c.events[i] == b.events[i];
      } else {
        assert c.events[|b.events|] == e;
      }
    }
  }

  // ---------------------------------------------------------------------
  // The phases

  /** The history so far is in order and reported. */
  ghost predicate Told(env: Env, a: Agent) {
    Orderly(env.config, a.log) && AllSettled(a) && AllReported(a) && Detailed(a)
  }

  /** A result with its history told and ended right. */
  ghost predicate Ended(env: Env, r: Result) {
    && r.Result? && Orderly(env.config, r.agent.log) && NearlySettled(r.agent) && AllReported(r.agent)
    && Detailed(r.agent) && EndsRight(env.config, r)
  }

  /** Nothing of the history is lost. */
  ghost predicate Extends(a: Agent, b: Agent) {
    a.log <= b.log && a.events <= b.events
  }

  lemma ToldIsNear(env: Env, a: Agent)
    requires Told(env, a)
    ensures Orderly(env.config, a.log) && NearlySettled(a) && AllReported(a) && Detailed(a)
  {
    hide Details, Settled, ReportsAt, Orderly, AllReported;
  }

  lemma AskIsDetailed(env: Env, a: Agent, attempt: nat)
    requires Detailed(a) && Place(Ask(env, a, attempt).log, |a.log|) == attempt
    ensures Detailed(Ask(env, a, attempt))
  {
    hide Place;
    assert Ask(env, a, attempt).log[..|a.log|] == a.log;
  }

  lemma TryIsDetailed(env: Env, a: Agent, call: ToolCall, attempt: nat)
    requires Detailed(a) && Place(Try(env, a, call, attempt, false).log, |a.log|) == attempt
    ensures Detailed(Try(env, a, call, attempt, false))
  {
    hide Place, ResultOf, Ok, ErrorOf, Kind, Remark, Passing, Answered, CanonicalCall;
    ResultReads(call.name, env.tools(a.log, call.name, call.arguments));
    assert Try(env, a, call, attempt, false).log[..|a.log|] == a.log;
  }

  lemma AskIsTold(env: Env, a: Agent, attempt: nat)
    requires Told(env, a) && ComesNext(env.config, a.log, Asked(a.messages, env.provider(a.log, a.messages)), attempt)
    ensures var b := Ask(env, a, attempt);
            && Told(env, b) && b.log == a.log + [Asked(a.messages, env.provider(a.log, a.messages))]
            && Place(b.log, |b.log| - 1) == attempt
  {
    hide Ask, Orderly, AllSettled, AllReported, ComesNext, Detailed;
    AskCounts(env, a, attempt);
    var y := Asked(a.messages, env.provider(a.log, a.messages));
    OneMore(env.config, a.log, y, attempt);
    EventsStay(a, Ask(env, a, attempt), y);
    AskIsDetailed(env, a, attempt);
  }

  /** The provider loop: asked again while it fails in passing. */
  lemma {:induction false} ProviderStory(env: Env, a: Agent, attempt: nat)
    requires 1 <= attempt <= env.config.providerRetry.maxAttempts && Told(env, a)
    requires ComesNext(env.config, a.log, Asked(a.messages, env.provider(a.log, a.messages)), attempt)
    ensures match ProviderPhase(env, a, attempt, false)
            case Going(b, turn) =>
              && Told(env, b) && b.log != [] && b.log[|b.log| - 1] == Asked(a.messages, Completed(turn))
              && b.control.consecutive == 0 && Extends(a, b)
            case Stopped(r) => Ended(env, r) && Extends(a, r.agent)
    decreases env.config.providerRetry.maxAttempts - attempt
  {
    hide Ask, Say, Told, ComesNext, Orderly, NearlySettled, AllReported, Detailed, Place, Delay, ProviderEnd;
    var b := Ask(env, a, attempt);
    AskIsTold(env, a, attempt);
    AskCounts(env, a, attempt);
    ToldIsNear(env, b);
    match env.provider(a.log, a.messages)
    case Completed(_) =>
    case Errored(kind, message, retryable) =>
      ProviderSaid(env.config, kind, message, retryable, attempt, b.control.consecutive);
      if retryable && attempt < env.config.providerRetry.maxAttempts && b.control.consecutive < env.config.failureLimit
         && b.control.modelCalls < env.config.maxModelCalls {
        var c := b.(control := Retried(b.control, env.config.providerRetry, attempt + 1));
        SameStory(env, b, c);
        AskAgain(env.config, b.log, a.messages, env.provider(c.log, c.messages), attempt);
        ProviderStory(env, c, attempt + 1);
      }
  }

  lemma SameStory(env: Env, a: Agent, b: Agent)
    requires Told(env, a) && b.log == a.log && b.events == a.events && b.control.failures == a.control.failures
    ensures Told(env, b)
  {
    hide Details, Settled, ReportsAt, Orderly, Passing;
    forall k: nat | k < |b.log| && b.log[k].Tried? && !Passing(b.log[k].reply) ensures Reported(b, k) {
      assert Reported(a, k);
    }
  }

  lemma AskAgain(config: Config, log: seq<Attempt>, messages: seq<Message>, heard: ProviderReply, n: nat)
    requires log != [] && log[|log| - 1].Asked? && log[|log| - 1].messages == messages && Demands(log[|log| - 1])
    requires Place(log, |log| - 1) == n < config.providerRetry.maxAttempts
    ensures ComesNext(config, log, Asked(messages, heard), n + 1)
  {
    hide Place;
  }

  lemma TryIsTold(env: Env, a: Agent, call: ToolCall, attempt: nat)
    requires Told(env, a)
    requires ComesNext(env.config, a.log, Tried(call, env.tools(a.log, call.name, call.arguments)), attempt)
    ensures var b, reply := Try(env, a, call, attempt, false), env.tools(a.log, call.name, call.arguments);
            && Orderly(env.config, b.log) && AllSettled(b) && Detailed(b) && b.log == a.log + [Tried(call, reply)]
            && Place(b.log, |b.log| - 1) == attempt && (Passing(reply) ==> AllReported(b))
            && (forall k: nat | k < |a.log| && a.log[k].Tried? && !Passing(a.log[k].reply) :: Reported(b, k))
  {
    hide Try, Orderly, AllSettled, AllReported, ComesNext, Passing, Reported, Detailed;
    TryCounts(env, a, call, attempt, false);
    var y := Tried(call, env.tools(a.log, call.name, call.arguments));
    OneMore(env.config, a.log, y, attempt);
    EventsStay(a, Try(env, a, call, attempt, false), y);
    TryIsDetailed(env, a, call, attempt);
  }

  /** The event of the attempt just made. */
  lemma NoteIsTold(env: Env, a: Agent, call: ToolCall, attempt: nat, retries: nat)
    requires Told(env, a)
    requires ComesNext(env.config, a.log, Tried(call, env.tools(a.log, call.name, call.arguments)), attempt)
    ensures var b, reply := Try(env, a, call, attempt, false), env.tools(a.log, call.name, call.arguments);
            var c := WithEvent(b, call, ResultOf(call.name, reply), attempt, retries);
            && Orderly(env.config, c.log) && NearlySettled(c) && AllReported(c) && Detailed(c)
            && c.log == a.log + [Tried(call, reply)] && Place(c.log, |c.log| - 1) == attempt
            && (!Passing(reply) ==> Told(env, c))
  {
    hide Try, Orderly, AllSettled, NearlySettled, AllReported, ComesNext, Passing, Reported, ResultOf, Tells, Details;
    TryIsTold(env, a, call, attempt);
    var b, reply := Try(env, a, call, attempt, false), env.tools(a.log, call.name, call.arguments);
    ResultTells(call.name, reply);
    var e := ToolEvent(call, ResultOf(call.name, reply), attempt, retries);
    EventAdded(b, WithEvent(b, call, ResultOf(call.name, reply), attempt, retries), e);
  }

  lemma AnswerIsTold(env: Env, c: Agent, call: ToolCall, result: Fields)
    requires Told(env, c)
    ensures Told(env, AgentLoop.Told(c, call, result))
  {
    SameStory(env, c, AgentLoop.Told(c, call, result));
  }

  /** A call is done with: its last attempt called for nothing, and the run can go on. */
  ghost predicate DoneWith(env: Env, b: Agent) {
    && Told(env, b) && b.log != [] && b.log[|b.log| - 1].Tried?
    && !Passing(b.log[|b.log| - 1].reply) && !Late(b.log[|b.log| - 1].reply)
    && (Answered(b.log[|b.log| - 1].reply) || b.control.consecutive < env.config.failureLimit)
  }

  /** The loop over one call: tried again while it fails in passing, may be repeated, and nothing is
      used up. */
  lemma {:induction false} CallStory(env: Env, a: Agent, call: ToolCall, attempt: nat)
    requires 1 <= attempt <= env.config.toolRetry.maxAttempts && Told(env, a)
    requires ComesNext(env.config, a.log, Tried(call, env.tools(a.log, call.name, call.arguments)), attempt)
    ensures match CallPhase(env, a, call, attempt, false, false)
            case Going(b, _) => DoneWith(env, b) && Extends(a, b)
            case Stopped(r) => Ended(env, r) && Extends(a, r.agent)
    decreases env.config.toolRetry.maxAttempts - attempt
  {
    hide Try, Say, ComesNext, Orderly, NearlySettled, AllSettled, AllReported, Place, Delay, ResultOf, Ok, ErrorOf,
         RetryIsSafe, SafeToRepeat, Passing, Late, Answered, Told, Detailed, Remark, ToolEnd, EndsBetween;
    var reply := env.tools(a.log, call.name, call.arguments);
    var b, result := Try(env, a, call, attempt, false), ResultOf(call.name, reply);
    TryCounts(env, a, call, attempt, false);
    ResultReads(call.name, reply);
    SafeIsSafe(env.config, call);
    TryIsTold(env, a, call, attempt);
    NoteIsTold(env, a, call, attempt, attempt - 1);
    NoteIsTold(env, a, call, attempt, 0);
    AnsweredIsDone(reply);
    ToolSaid(env.config, call, reply, attempt, b.control.consecutive);
    if Ok(result) {
      AnswerIsTold(env, WithEvent(b, call, result, attempt, attempt - 1), call, result);
    } else if Again(env, b, call, ErrorOf(result), attempt) {
      var c := b.(control := Retried(b.control, env.config.toolRetry, attempt + 1));
      ToldOf(env, b);
      SameStory(env, b, c);
      TryAgain(env.config, b.log, call, env.tools(c.log, call.name, call.arguments), attempt);
      CallStory(env, c, call, attempt + 1);
    } else if !ErrorOf(result).retryable && ErrorOf(result).kind != "tool_timeout"
              && b.control.consecutive < env.config.failureLimit {
      AnswerIsTold(env, WithEvent(b, call, result, attempt, attempt - 1), call, result);
    }
  }

  lemma AnsweredIsDone(reply: ToolReply)
    ensures Answered(reply) ==> !Passing(reply) && !Late(reply)
    ensures Late(reply) <==> !Answered(reply) && Kind(reply) == "tool_timeout"
  {
  }

  lemma ToldOf(env: Env, b: Agent)
    requires Orderly(env.config, b.log) && AllSettled(b) && AllReported(b) && Detailed(b)
    ensures Told(env, b)
  {
    hide Orderly, AllSettled, AllReported, Detailed;
  }

  lemma TryAgain(config: Config, log: seq<Attempt>, call: ToolCall, reply: ToolReply, n: nat)
    requires log != [] && log[|log| - 1].Tried? && log[|log| - 1].call == call && Passing(log[|log| - 1].reply)
    requires Place(log, |log| - 1) == n < config.toolRetry.maxAttempts && SafeToRepeat(config, call)
    ensures ComesNext(config, log, Tried(call, reply), n + 1)
  {
    hide Place, Passing, SafeToRepeat;
  }

  /** The turn was just heard, or a call is done with. */
  ghost predicate Between(env: Env, a: Agent) {
    && Told(env, a) && a.log != []
    && var last := a.log[|a.log| - 1];
       DoneWith(env, a) || (last.Asked? && last.heard.Completed? && last.heard.turn.calls != [])
  }

  lemma EndedBetween(env: Env, r: Result, tool: string)
    requires r.Result? && Between(env, r.agent)
    requires StopsBetween(env.config, tool, r)
    requires r.reason == Some(ToolCallBudgetExhausted) || r.reason == Some(RepeatedToolCall) || DoneWith(env, r.agent)
    ensures Ended(env, r)
  {
    hide Say, Orderly, NearlySettled, AllSettled, AllReported, Detailed, EndsBetween, Place, Passing, Late, Answered;
    ToldIsNear(env, r.agent);
    BetweenSaid(env.config, tool);
  }

  lemma EndedByTurn(env: Env, a: Agent, turn: Turn)
    requires Told(env, a) && a.log != [] && turn.calls == []
    requires a.log[|a.log| - 1].Asked? && a.log[|a.log| - 1].heard == Completed(turn)
    ensures Ended(env, Result(CompletedStatus, None, turn.content.GetOr(""), a))
  {
    hide Orderly, NearlySettled, AllSettled, AllReported, Detailed, EndsBetween, Place;
    ToldIsNear(env, a);
  }

  /** The calls of a turn, from the `i`-th on: the turn was just heard, or a call is done with. */
  lemma {:induction false} CallsStory(env: Env, a: Agent, calls: seq<ToolCall>, i: nat)
    requires env.config.Valid() && i < |calls|
    requires Told(env, a) && a.log != []
    requires if i == 0 then a.log[|a.log| - 1].Asked? && a.log[|a.log| - 1].heard.Completed?
                            && a.log[|a.log| - 1].heard.turn.calls == calls
             else DoneWith(env, a)
    ensures match CallsPhase(env, a, calls, i, false)
            case Going(b, _) => DoneWith(env, b) && Extends(a, b)
            case Stopped(r) => Ended(env, r) && Extends(a, r.agent)
    decreases |calls| - i
  {
    hide CallPhase, Say, CanonicalCall, Config.Valid, Orderly, NearlySettled, AllSettled, AllReported, Place, Passing,
         Late, Answered, Detailed, EndsRight, Ended, Told;
    var call := calls[i];
    if a.control.toolCalls >= env.config.maxToolCalls {
      EndedBetween(env, Stop(ToolCallBudgetExhausted, Say(ToolBudgetSpent), a), "");
    } else if Repeats(a.control, CanonicalCall(call.name, call.arguments)) >= env.config.repeatedCallLimit {
      EndedBetween(env, Stop(RepeatedToolCall, Say(CallRepeated(call.name)), a), call.name);
    } else {
      AttemptsAllowed(env.config);
      CallStory(env, a, call, 1);
      match CallPhase(env, a, call, 1, false, false)
      case Going(b, _) =>
        if i + 1 < |calls| {
          CallsStory(env, b, calls, i + 1);
        }
      case Stopped(_) =>
    }
  }

  /** The outer loop, at the start of a turn. */
  lemma {:induction false} TurnsStory(env: Env, a: Agent)
    requires env.config.Valid() && (a.log == [] || DoneWith(env, a)) && Told(env, a) && a.steps < env.config.maxSteps
    requires a.log == [] ==> a.control.modelCalls < env.config.maxModelCalls
    ensures Ended(env, Turns(env, a, false)) && Extends(a, Turns(env, a, false).agent)
    decreases env.config.maxSteps - a.steps
  {
    hide ProviderPhase, CallsPhase, Say, Config.Valid, Orderly, NearlySettled, AllSettled, AllReported, Place, Passing,
         Late, Answered, Detailed, EndsRight, Ended, Told;
    AttemptsAllowed(env.config);
    if a.control.modelCalls >= env.config.maxModelCalls {
      EndedBetween(env, Stop(ModelCallBudgetExhausted, Say(ModelBudgetSpent), a), "");
    } else {
      var begun := a.(steps := a.steps + 1);
      SameStory(env, a, begun);
      ProviderStory(env, begun, 1);
      match ProviderPhase(env, begun, 1, false)
      case Stopped(r) =>
      case Going(b, turn) =>
        var heard := b.(messages := b.messages + [AssistantMessage(turn.content, turn.calls)]);
        SameStory(env, b, heard);
        if turn.calls == [] {
          EndedByTurn(env, heard, turn);
        } else {
          CallsStory(env, heard, turn.calls, 0);
          match CallsPhase(env, heard, turn.calls, 0, false)
          case Stopped(_) =>
          case Going(c, _) =>
            if c.steps < env.config.maxSteps {
              TurnsStory(env, c);
            } else {
              var response := Say(StepsSpent(env.config.maxSteps));
              EndedBetween(env, Result(MaxStepsStatus, Some(StepBudgetExhausted), response, c), "");
            }
        }
    }
  }

  /** In every run the history is in order: a failure that may pass is followed by another attempt of
      the same turn or call or ends the run, any other attempt is followed by the next call or turn;
      every event reports the last attempt of its call, and how many there were; and the run ends for
      what its last attempt calls for. */
  lemma RunIsTold(env: Env)
    requires env.config.Valid()
    ensures Ended(env, Run(env))
  {
    hide Turns, Config.Valid, Closed;
    RunIsClosed(env);
    StartIsTold(env);
    CallsAllowed(env.config);
    AttemptsAllowed(env.config);
    TurnsStory(env, Start(env));
  }

  lemma StartIsTold(env: Env)
    ensures Told(env, Start(env))
  {
  }

  lemma CallsAllowed(config: Config)
    requires config.Valid()
    ensures config.maxModelCalls >= 1
  {
  }

  // ---------------------------------------------------------------------
  // What this means for a failure

  /** Calls, turns and failures are left after this part of the history. */
  ghost predicate RoomFor(config: Config, log: seq<Attempt>, x: Attempt) {
    var c := Tally(log);
    && c.trailing < config.failureLimit
    && (if x.Asked? then c.asks < config.maxModelCalls else c.tries < config.maxToolCalls)
  }

  /** A failure that may pass is met by another attempt of the same turn or call, as long as attempts,
      calls and failures are left and repeating is safe. */
  lemma FailuresAreRepeated(env: Env, i: nat)
    requires env.config.Valid() && i < |Run(env).agent.log|
    requires var log := Run(env).agent.log;
             && Demands(log[i]) && MayRepeat(env.config, log[i], Place(log, i))
             && RoomFor(env.config, log[..i + 1], log[i])
    ensures var log := Run(env).agent.log;
            && i + 1 < |log| && Place(log, i + 1) == Place(log, i) + 1
            && match log[i]
               case Asked(messages, _) => log[i + 1].Asked? && log[i + 1].messages == messages
               case Tried(call, _) => log[i + 1].Tried? && log[i + 1].call == call
  {
    hide Run, Config.Valid, Tally, NearlySettled, AllReported, NearlyEchoed, Accounted, Transcript, Waited,
         Passing, Late, Answered, SafeToRepeat, Details, ToolEnd, ProviderEnd, EndsBetween, Say,
         Exhausted;
    RunIsTold(env);
    RunIsClosed(env);
    var log, config, failures := Run(env).agent.log, env.config, Run(env).agent.control.consecutive;
    if i + 1 == |log| {
      assert log[..i + 1] == log;
      match log[i]
      case Asked(_, Errored(kind, message, retryable)) =>
        ProviderSaid(config, kind, message, retryable, Place(log, i), failures);
      case Tried(call, reply) =>
        AnsweredIsDone(reply);
        ToolSaid(config, call, reply, Place(log, i), failures);
    }
  }

  /** A tool's timeout: repeated as any passing failure is; when that is not safe, the run ends
      UNSAFE_RETRY_BLOCKED, and when no attempt is left, TOOL_TIMEOUT. */
  lemma TimeoutsEnd(env: Env, i: nat)
    requires env.config.Valid() && i < |Run(env).agent.log|
    requires Run(env).agent.log[i].Tried? && Run(env).agent.log[i].reply.TimedOut?
    ensures Run(env).Result?
    ensures var r, log, call := Run(env), Run(env).agent.log, Run(env).agent.log[i].call;
            && (Place(log, i) < env.config.toolRetry.maxAttempts && !SafeToRepeat(env.config, call) ==>
                  i + 1 == |log| && r.reason == Some(UnsafeRetryBlocked))
            && (Place(log, i) >= env.config.toolRetry.maxAttempts
                && Tally(log[..i + 1]).trailing < env.config.failureLimit ==>
                  i + 1 == |log| && r.reason == Some(ToolTimeout))
  {
    hide Run, Config.Valid, Tally, NearlySettled, AllReported, NearlyEchoed, Accounted, Transcript, Waited,
         SafeToRepeat, Truthful, Details, ToolEnd, ProviderEnd, EndsBetween, Say, Kind, Remark;
    RunIsTold(env);
    RunIsClosed(env);
    var log := Run(env).agent.log;
    TimeoutIsLate(log[i].reply);
    if i + 1 == |log| {
      assert log[..i + 1] == log;
      ToolSaid(env.config, log[i].call, log[i].reply, Place(log, i), Run(env).agent.control.consecutive);
    }
  }

  lemma TimeoutIsLate(reply: ToolReply)
    requires reply.TimedOut?
    ensures Passing(reply) && Late(reply) && !Answered(reply)
  {
  }

  /** A call whose tool raised is not made again: its event reports the exception, after as many
      attempts as there were. */
  lemma RaisedIsFinal(env: Env, i: nat, message: string)
    requires env.config.Valid() && i < |Run(env).agent.log|
    requires Run(env).agent.log[i].Tried? && Run(env).agent.log[i].reply == Raised(message)
    ensures var log := Run(env).agent.log;
            i + 1 < |log| ==> Place(log, i + 1) == 1
    ensures var log, events := Run(env).agent.log, Run(env).agent.events;
            exists j | 0 <= j < |events| ::
              && events[j].call == log[i].call && events[j].attempts == Place(log, i)
              && events[j].result ==
                   [Field("ok", Bool(false)),
                    Field("error", Obj([Field("type", Str("tool_execution_error")), Field("message", Str(message))]))]
  {
    hide Run, Config.Valid, NearlySettled, Follows, MayRepeat, EndsRight;
    RunIsTold(env);
    var a := Run(env).agent;
    assert Reported(a, i);
    var j :| 0 <= j < |a.events| && ReportsAt(a.log, a.events[j], i);
  }

  /** Every answered attempt has an event of its own: the answer, the attempts its call took, and one
      retry less. */
  lemma AnswersAreHeard(env: Env, i: nat, result: Fields)
    requires env.config.Valid() && i < |Run(env).agent.log|
    requires Run(env).agent.log[i].Tried? && Run(env).agent.log[i].reply == Returned(Obj(result))
    requires Lookup(result, "ok") == Some(Bool(true))
    ensures var log, events := Run(env).agent.log, Run(env).agent.events;
            exists j | 0 <= j < |events| ::
              events[j] == ToolEvent(log[i].call, result, Place(log, i), Place(log, i) - 1)
  {
    hide Run, Config.Valid, NearlySettled, Orderly, EndsRight, Place, ErrorOf;
    RunIsTold(env);
    var a := Run(env).agent;
    assert Reported(a, i);
    var j :| 0 <= j < |a.events| && ReportsAt(a.log, a.events[j], i);
    RetriesAreNoted(env, j);
    assert a.events[j] == ToolEvent(a.log[i].call, result, Place(a.log, i), Place(a.log, i) - 1);
  }

  /** A call that times out at first and then answers leaves one event, the answer, with two
      attempts and one retry. */
  lemma LaterAnswerIsHeard(env: Env, i: nat, result: Fields)
    requires env.config.Valid() && i + 1 < |Run(env).agent.log|
    requires var log := Run(env).agent.log;
             && log[i].Tried? && log[i].reply.TimedOut? && Place(log, i) == 1
             && log[i + 1].Tried? && log[i + 1].reply == Returned(Obj(result))
    requires Lookup(result, "ok") == Some(Bool(true))
    ensures var log, events := Run(env).agent.log, Run(env).agent.events;
            && log[i + 1].call == log[i].call
            && exists j | 0 <= j < |events| :: events[j] == ToolEvent(log[i].call, result, 2, 1)
  {
    hide Run, Config.Valid, NearlySettled, AllReported, EndsRight;
    RunIsTold(env);
    AnswersAreHeard(env, i + 1, result);
  }
}
