/** What every run of the single-agent loop keeps, for all provider and tool behaviours. */
module AgentLaws {
  import opened Options
  import opened Json
  import opened Keys
  import opened Reliability
  import opened AgentLoop

  // ---------------------------------------------------------------------
  // Counting attempts and events

  /** Over a history of attempts: provider calls, tool calls, provider turns, successful tool
      calls, failures, and the length of the run of failures at its end. */
  datatype Counts = Counts(asks: nat, tries: nat, turns: nat, answers: nat, failures: nat, trailing: nat)

  predicate Worked(x: Attempt) {
    match x
    case Asked(_, heard) => heard.Completed?
    case Tried(call, reply) => Ok(ResultOf(call.name, reply))
  }

  function After(c: Counts, x: Attempt): Counts {
    var d := if x.Asked? then c.(asks := c.asks + 1, turns := c.turns + if Worked(x) then 1 else 0)
             else c.(tries := c.tries + 1, answers := c.answers + if Worked(x) then 1 else 0);
    if Worked(x) then d.(trailing := 0) else d.(failures := d.failures + 1, trailing := d.trailing + 1)
  }

  function Tally(log: seq<Attempt>): Counts {
    if log == [] then Counts(0, 0, 0, 0, 0, 0) else After(Tally(log[..|log| - 1]), log[|log| - 1])
  }

  lemma TallySnoc(log: seq<Attempt>, x: Attempt)
    ensures Tally(log + [x]) == After(Tally(log), x)
  {
    assert (log + [x])[..|log|] == log;
  }

  /** Every attempt worked or failed. */
  lemma {:induction false} AttemptsAddUp(log: seq<Attempt>)
    ensures Tally(log).asks + Tally(log).tries == Tally(log).failures + Tally(log).turns + Tally(log).answers == |log|
  {
    hide Worked;
    if log != [] {
      AttemptsAddUp(log[..|log| - 1]);
    }
  }

  function AttemptSum(events: seq<ToolEvent>): nat {
    if events == [] then 0 else AttemptSum(events[..|events| - 1]) + events[|events| - 1].attempts
  }

  function OkEvents(events: seq<ToolEvent>): nat {
    if events == [] then 0 else OkEvents(events[..|events| - 1]) + if Ok(events[|events| - 1].result) then 1 else 0
  }

  function KeyOfEvent(e: ToolEvent): string {
    CanonicalCall(e.call.name, e.call.arguments)
  }

  function OkEventsOf(events: seq<ToolEvent>, key: string): nat {
    if events == [] then 0
    else
      var last := events[|events| - 1];
      OkEventsOf(events[..|events| - 1], key) + if Ok(last.result) && KeyOfEvent(last) == key then 1 else 0
  }

  lemma EventsSnoc(events: seq<ToolEvent>, e: ToolEvent)
    ensures AttemptSum(events + [e]) == AttemptSum(events) + e.attempts
    ensures OkEvents(events + [e]) == OkEvents(events) + if Ok(e.result) then 1 else 0
    ensures forall key :: OkEventsOf(events + [e], key) ==
                          OkEventsOf(events, key) + if Ok(e.result) && KeyOfEvent(e) == key then 1 else 0
  {
    hide Ok, KeyOfEvent;
    assert (events + [e])[..|events|] == events;
  }

  // ---------------------------------------------------------------------
  // Transcripts

  ghost predicate Answers(calls: seq<ToolCall>, replies: seq<Message>) {
    |calls| == |replies| && forall j | 0 <= j < |calls| :: replies[j].ToolMessage? && replies[j].callId == calls[j].id
  }

  /** A sequence of blocks: an assistant message with calls, then one answer for each, in order. */
  ghost predicate Blocks(ms: seq<Message>) {
    ms == [] ||
    (&& ms[0].AssistantMessage? && ms[0].calls != []
     && var n := 1 + |ms[0].calls|;
        n <= |ms| && Answers(ms[0].calls, ms[1..n]) && Blocks(ms[n..]))
  }

  ghost predicate Transcript(env: Env, ms: seq<Message>) {
    && |ms| >= 2 && ms[0] == SystemMessage(env.system) && ms[1] == UserMessage(env.task)
    && Blocks(ms[2..])
  }

  lemma {:induction false} BlocksAppend(ms: seq<Message>, content: Option<string>, calls: seq<ToolCall>,
                                        replies: seq<Message>)
    requires Blocks(ms) && calls != [] && Answers(calls, replies)
    ensures Blocks(ms + [AssistantMessage(content, calls)] + replies)
  {
    var block := [AssistantMessage(content, calls)] + replies;
    var all := ms + [AssistantMessage(content, calls)] + replies;
    if ms == [] {
      assert all == block && block[1..1 + |calls|] == replies && block[1 + |calls|..] == [];
    } else {
      var n := 1 + |ms[0].calls|;
      BlocksAppend(ms[n..], content, calls, replies);
      assert all[1..n] == ms[1..n] && all[n..] == ms[n..] + [AssistantMessage(content, calls)] + replies;
    }
  }

  /** The answers in a transcript, in order. */
  function Replies(ms: seq<Message>): seq<(string, Fields)> {
    if ms == [] then []
    else
      var last := ms[|ms| - 1];
      Replies(ms[..|ms| - 1]) + if last.ToolMessage? then [(last.callId, last.result)] else []
  }

  lemma RepliesSnoc(ms: seq<Message>, m: Message)
    ensures Replies(ms + [m]) == Replies(ms) + if m.ToolMessage? then [(m.callId, m.result)] else []
  {
    assert (ms + [m])[..|ms|] == ms;
  }

  function Reported(events: seq<ToolEvent>): (r: seq<(string, Fields)>)
    ensures |r| == |events| && forall i | 0 <= i < |r| :: r[i] == (events[i].call.id, events[i].result)
  {
    seq(|events|, i requires 0 <= i < |events| => (events[i].call.id, events[i].result))
  }

  // ---------------------------------------------------------------------
  // The invariant

  /** Delays: one for each retry, none above the larger cap. */
  ghost predicate Waited(config: Config, c: Control) {
    && |c.delays| == c.retries
    && forall i | 0 <= i < |c.delays| ::
         0.0 <= c.delays[i] &&
         (c.delays[i] <= config.providerRetry.maxBackoff || c.delays[i] <= config.toolRetry.maxBackoff)
  }

  /** The `k`-th attempt was answered by the provider or the tools, given the history before it. */
  ghost predicate Genuine(env: Env, log: seq<Attempt>, k: nat)
    requires k < |log|
  {
    match log[k]
    case Asked(messages, heard) => heard == env.provider(log[..k], messages)
    case Tried(call, reply) => reply == env.tools(log[..k], call.name, call.arguments)
  }

  /** Each event reports what an attempt of its call returned. */
  ghost predicate Witnessed(a: Agent) {
    forall i | 0 <= i < |a.events| :: HasWitness(a.log, a.events[i])
  }

  ghost predicate HasWitness(log: seq<Attempt>, e: ToolEvent) {
    exists k: nat :: WitnessAt(log, e, k)
  }

  ghost predicate WitnessAt(log: seq<Attempt>, e: ToolEvent, k: nat) {
    k < |log| && log[k].Tried? && log[k].call == e.call && ResultOf(e.call.name, log[k].reply) == e.result
  }

  /** The counters are those of the history, which started no attempt at the failure limit and
      showed the provider only complete transcripts. */
  ghost predicate Logged(env: Env, a: Agent) {
    var t := Tally(a.log);
    && a.control.modelCalls == t.asks <= env.config.maxModelCalls
    && a.control.toolCalls == t.tries <= env.config.maxToolCalls
    && |a.control.failures| == t.failures
    && a.control.consecutive == t.trailing
    && (forall k | 0 <= k < |a.log| :: Tally(a.log[..k]).trailing < env.config.failureLimit)
    && (forall k | 0 <= k < |a.log| && a.log[k].Asked? :: Transcript(env, a.log[k].messages))
    && (forall k | 0 <= k < |a.log| :: Genuine(env, a.log, k))
    && Waited(env.config, a.control)
  }

  /** An event stands for at least one attempt, and for more only if that was safe. */
  ghost predicate Guarded(config: Config, e: ToolEvent) {
    && e.attempts >= 1
    && (e.attempts > 1 ==> RetryIsSafe(config, e.call.name, e.call.arguments))
  }

  /** The events account for the tool calls but the last `pending`, and for the noted repeats. */
  ghost predicate Accounted(config: Config, a: Agent, pending: nat) {
    && AttemptSum(a.events) + pending == a.control.toolCalls
    && OkEvents(a.events) == Tally(a.log).answers
    && (forall key :: Repeats(a.control, key) == OkEventsOf(a.events, key) <= config.repeatedCallLimit)
    && forall i | 0 <= i < |a.events| :: Guarded(config, a.events[i])
  }

  /** The law of the counters, `owed` calls short. */
  ghost predicate Balanced(a: Agent, owed: int) {
    a.control.modelCalls + a.control.toolCalls + owed == a.steps + |a.events| + a.control.retries
  }

  ghost predicate Kept(env: Env, a: Agent, owed: int, pending: nat) {
    && Logged(env, a) && Accounted(env.config, a, pending) && Balanced(a, owed) && Witnessed(a)
    && a.steps <= env.config.maxSteps
  }

  ghost predicate Able(env: Env, a: Agent) {
    a.control.consecutive < env.config.failureLimit
  }

  // ---------------------------------------------------------------------
  // One attempt

  /** The history grew by one attempt, and the counters with it. */
  ghost predicate Counted(a: Agent, b: Agent, x: Attempt) {
    && b.log == a.log + [x]
    && b.control.modelCalls == a.control.modelCalls + (if x.Asked? then 1 else 0)
    && b.control.toolCalls == a.control.toolCalls + (if x.Tried? then 1 else 0)
    && |b.control.failures| == |a.control.failures| + (if Worked(x) then 0 else 1)
    && b.control.consecutive == (if Worked(x) then 0 else a.control.consecutive + 1)
    && b.control.retries == a.control.retries && b.control.delays == a.control.delays
  }

  lemma LogGrows(env: Env, a: Agent, b: Agent, x: Attempt)
    requires Logged(env, a) && Able(env, a) && Counted(a, b, x)
    requires x.Asked? ==> a.control.modelCalls < env.config.maxModelCalls && Transcript(env, x.messages)
    requires x.Tried? ==> a.control.toolCalls < env.config.maxToolCalls
    requires Genuine(env, a.log + [x], |a.log|)
    ensures Logged(env, b)
  {
    hide Transcript, Waited, Tally, Worked, Genuine;
    TallySnoc(a.log, x);
    forall k | 0 <= k < |b.log|
      ensures Tally(b.log[..k]).trailing < env.config.failureLimit
              && (b.log[k].Asked? ==> Transcript(env, b.log[k].messages))
      ensures Genuine(env, b.log, k)
    {
      if k < |a.log| {
        assert b.log[..k] == a.log[..k] && b.log[k] == a.log[k];
        GenuineStays(env, a.log, b.log, k);
      } else {
        assert b.log[..k] == a.log;
      }
    }
    assert Waited(env.config, b.control) by { WaitedKept(env.config, a.control, b.control); }
  }

  lemma GenuineStays(env: Env, log: seq<Attempt>, more: seq<Attempt>, k: nat)
    requires k < |log| && log <= more && Genuine(env, log, k)
    ensures Genuine(env, more, k)
  {
    assert more[..k] == log[..k];
  }

  lemma GenuineNow(env: Env, log: seq<Attempt>, x: Attempt)
    requires match x
             case Asked(messages, heard) => heard == env.provider(log, messages)
             case Tried(call, reply) => reply == env.tools(log, call.name, call.arguments)
    ensures Genuine(env, log + [x], |log|)
  {
    assert (log + [x])[..|log|] == log;
  }

  lemma WitnessesStay(a: Agent, b: Agent)
    requires Witnessed(a) && a.log <= b.log && b.events == a.events
    ensures Witnessed(b)
  {
    forall i | 0 <= i < |b.events| ensures HasWitness(b.log, b.events[i]) {
      assert HasWitness(a.log, a.events[i]);
      var k: nat :| WitnessAt(a.log, a.events[i], k);
      assert WitnessAt(b.log, b.events[i], k);
    }
  }

  lemma WitnessAdded(b: Agent, e: ToolEvent)
    requires Witnessed(b) && b.log != [] && WitnessAt(b.log, e, |b.log| - 1)
    ensures Witnessed(b.(events := b.events + [e]))
  {
    var c := b.(events := b.events + [e]);
    forall i | 0 <= i < |c.events| ensures HasWitness(c.log, c.events[i]) {
      if i < |b.events| {
        assert HasWitness(b.log, b.events[i]);
      } else {
        assert WitnessAt(c.log, c.events[i], |b.log| - 1);
      }
    }
  }

  lemma WaitedKept(config: Config, c: Control, d: Control)
    requires Waited(config, c) && d.retries == c.retries && d.delays == c.delays
    ensures Waited(config, d)
  {
  }

  lemma AskCounts(env: Env, a: Agent, attempt: nat)
    ensures var b := Ask(env, a, attempt);
            && Counted(a, b, Asked(a.messages, env.provider(a.log, a.messages)))
            && b.messages == a.messages && b.events == a.events && b.steps == a.steps
            && b.control.repeated == a.control.repeated
  {
  }

  lemma AskKept(env: Env, a: Agent, attempt: nat)
    requires Kept(env, a, 1, 0) && Able(env, a)
    requires a.control.modelCalls < env.config.maxModelCalls && Transcript(env, a.messages)
    ensures var b := Ask(env, a, attempt);
            && Kept(env, b, 0, 0)
            && b.control.consecutive ==
               (if env.provider(a.log, a.messages).Completed? then 0 else a.control.consecutive + 1)
  {
    hide Logged, Transcript, Tally, Ask, Guarded, RetryIsSafe, Witnessed, Genuine;
    var b, x := Ask(env, a, attempt), Asked(a.messages, env.provider(a.log, a.messages));
    AskCounts(env, a, attempt);
    GenuineNow(env, a.log, x);
    LogGrows(env, a, b, x);
    TallySnoc(a.log, x);
    WitnessesStay(a, b);
  }

  lemma TryCounts(env: Env, a: Agent, call: ToolCall, attempt: nat, recorded: bool)
    ensures var b, reply := Try(env, a, call, attempt, recorded), env.tools(a.log, call.name, call.arguments);
            && Counted(a, b, Tried(call, reply))
            && b.messages == a.messages && b.events == a.events && b.steps == a.steps
            && b.control.repeated == if !recorded && Ok(ResultOf(call.name, reply))
                                     then Validated(a.control, call.name, call.arguments).repeated
                                     else a.control.repeated
  {
    hide ResultOf, Ok, ErrorOf, CanonicalCall;
  }

  lemma TryFails(env: Env, a: Agent, call: ToolCall, attempt: nat)
    requires attempt >= 1 && Kept(env, a, 0, attempt - 1) && Able(env, a)
    requires a.control.toolCalls < env.config.maxToolCalls
    requires !Ok(ResultOf(call.name, env.tools(a.log, call.name, call.arguments)))
    ensures var b := Try(env, a, call, attempt, false);
            && Kept(env, b, -1, attempt) && b.control.consecutive == a.control.consecutive + 1
  {
    hide Logged, Tally, Try, ResultOf, Ok, Guarded, RetryIsSafe, CanonicalCall, Witnessed, Genuine;
    var b, x := Try(env, a, call, attempt, false), Tried(call, env.tools(a.log, call.name, call.arguments));
    TryCounts(env, a, call, attempt, false);
    GenuineNow(env, a.log, x);
    LogGrows(env, a, b, x);
    TallySnoc(a.log, x);
    WitnessesStay(a, b);
  }

  lemma NoteFailure(env: Env, b: Agent, call: ToolCall, result: Fields, attempts: nat, retries: nat)
    requires Kept(env, b, -1, attempts) && !Ok(result)
    requires Guarded(env.config, ToolEvent(call, result, attempts, retries))
    requires b.log != [] && WitnessAt(b.log, ToolEvent(call, result, attempts, retries), |b.log| - 1)
    ensures Kept(env, WithEvent(b, call, result, attempts, retries), 0, 0)
  {
    hide Logged, Tally, Ok, Guarded, CanonicalCall, Witnessed, WitnessAt, KeyOfEvent, OkEventsOf, OkEvents,
         AttemptSum;
    var e := ToolEvent(call, result, attempts, retries);
    EventsSnoc(b.events, e);
    WitnessAdded(b, e);
    LoggedKept(env, b, WithEvent(b, call, result, attempts, retries));
  }

  lemma LoggedKept(env: Env, a: Agent, b: Agent)
    requires Logged(env, a) && b.log == a.log && b.control == a.control
    ensures Logged(env, b)
  {
    hide Transcript, Tally, Waited, Genuine;
  }

  lemma DelayIsWaited(config: Config, c: Control, policy: RetryPolicy, next: nat)
    requires config.Valid() && Waited(config, c) && (policy == config.providerRetry || policy == config.toolRetry)
    ensures Waited(config, Retried(c, policy, next))
  {
    hide Delay;
    DelayGrowsToItsCap(policy, next, next);
  }

  lemma RetryKept(env: Env, b: Agent, owed: int, pending: nat, policy: RetryPolicy, next: nat)
    requires env.config.Valid() && Kept(env, b, owed, pending)
    requires policy == env.config.providerRetry || policy == env.config.toolRetry
    ensures Kept(env, b.(control := Retried(b.control, policy, next)), owed + 1, pending)
  {
    hide Transcript, Tally, Waited, Guarded, Delay, OkEventsOf, OkEvents, AttemptSum, Config.Valid, Genuine, HasWitness;
    DelayIsWaited(env.config, b.control, policy, next);
  }

  lemma TryWorks(env: Env, a: Agent, call: ToolCall, attempt: nat)
    requires attempt >= 1 && Kept(env, a, 0, attempt - 1) && Able(env, a)
    requires a.control.toolCalls < env.config.maxToolCalls
    requires var result := ResultOf(call.name, env.tools(a.log, call.name, call.arguments));
             Ok(result) && Guarded(env.config, ToolEvent(call, result, attempt, attempt - 1))
    requires Repeats(a.control, CanonicalCall(call.name, call.arguments)) < env.config.repeatedCallLimit
    ensures var result := ResultOf(call.name, env.tools(a.log, call.name, call.arguments));
            var b := Try(env, a, call, attempt, false);
            Kept(env, WithEvent(b, call, result, attempt, attempt - 1), 0, 0) && b.control.consecutive == 0
  {
    hide Logged, Tally, Try, ResultOf, Ok, Guarded, RetryIsSafe, CanonicalCall, Witnessed, Genuine;
    var reply := env.tools(a.log, call.name, call.arguments);
    var b, x, result := Try(env, a, call, attempt, false), Tried(call, reply), ResultOf(call.name, reply);
    var e := ToolEvent(call, result, attempt, attempt - 1);
    TryCounts(env, a, call, attempt, false);
    GenuineNow(env, a.log, x);
    LogGrows(env, a, b, x);
    TallySnoc(a.log, x);
    EventsSnoc(a.events, e);
    WitnessesStay(a, b);
    assert WitnessAt(b.log, e, |b.log| - 1);
    WitnessAdded(b, e);
    LoggedKept(env, b, WithEvent(b, call, result, attempt, attempt - 1));
    RepeatsKept(env.config, a, b, e);
  }

  lemma RepeatsKept(config: Config, a: Agent, b: Agent, e: ToolEvent)
    requires forall key :: Repeats(a.control, key) == OkEventsOf(a.events, key) <= config.repeatedCallLimit
    requires b.control.repeated == Validated(a.control, e.call.name, e.call.arguments).repeated
    requires Repeats(a.control, KeyOfEvent(e)) < config.repeatedCallLimit && Ok(e.result)
    ensures forall key :: Repeats(b.control, key) == OkEventsOf(a.events + [e], key) <= config.repeatedCallLimit
  {
    hide Ok, CanonicalCall, OkEventsOf;
    EventsSnoc(a.events, e);
  }
}
