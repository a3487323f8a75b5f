/** Retry policies, the limits of an agent run, and the controller that counts against them. */
module Reliability {
  import opened Options
  import opened Json
  import opened Keys

  // ---------------------------------------------------------------------
  // Backoff

  datatype RetryPolicy = RetryPolicy(maxAttempts: nat, initial: real, multiplier: real, maxBackoff: real) {
    predicate Valid() {
      1 <= maxAttempts <= 10 && 0.0 <= initial <= 60.0 && 1.0 <= multiplier <= 10.0 && 0.0 <= maxBackoff <= 300.0
    }
  }

  function Pow(x: real, n: nat): real {
    if n == 0 then 1.0 else x * Pow(x, n - 1)
  }

  /** `delay_before_attempt`. */
  function Delay(p: RetryPolicy, attempt: int): real {
    if attempt <= 1 then 0.0
    else
      var delay := p.initial * Pow(p.multiplier, attempt - 2);
      if delay <= p.maxBackoff then delay else p.maxBackoff
  }

  /** The sleep of an operation that took `attempts` attempts. */
  function TotalDelay(p: RetryPolicy, attempts: nat): real {
    if attempts <= 1 then 0.0 else TotalDelay(p, attempts - 1) + Delay(p, attempts)
  }

  lemma {:induction false} PowGrows(x: real, n: nat)
    requires x >= 1.0
    ensures 1.0 <= Pow(x, n) <= Pow(x, n + 1)
  {
    hide Pow;
    PowUnfolds(x);
    if n > 0 {
      PowGrows(x, n - 1);
      assert Pow(x, n) == x * Pow(x, n - 1) && Pow(x, n + 1) == x * Pow(x, n);
      ScaleMonotone(x, Pow(x, n - 1), Pow(x, n));
    } else {
      assert Pow(x, 1) == x * Pow(x, 0) == x * 1.0;
    }
  }

  /** The first two attempts: no wait, then the initial one. */
  lemma FirstRise(p: RetryPolicy)
    requires p.Valid()
    ensures Delay(p, 1) == 0.0 <= Delay(p, 2) <= p.maxBackoff
  {
    assert Pow(p.multiplier, 0) == 1.0;
    assert p.initial * 1.0 == p.initial;
  }

  lemma DelayRises(p: RetryPolicy, n: nat)
    requires p.Valid()
    ensures 0.0 <= Delay(p, n + 2) <= Delay(p, n + 3) <= p.maxBackoff
  {
    PowGrows(p.multiplier, n);
    hide Pow;
    var x, y := Pow(p.multiplier, n), Pow(p.multiplier, n + 1);
    ScaleMonotone(p.initial, x, y);
  }

  lemma DelayStep(p: RetryPolicy, a: int)
    requires p.Valid()
    ensures 0.0 <= Delay(p, a) <= Delay(p, a + 1) <= p.maxBackoff
  {
    if a > 1 {
      DelayRises(p, a - 2);
    } else if a == 1 {
      FirstRise(p);
    }
  }

  lemma ScaleMonotone(k: real, x: real, y: real)
    requires k >= 0.0 && 0.0 <= x <= y
    ensures 0.0 <= k * x <= k * y
  {
  }

  /** Later attempts never wait less, and none waits more than the cap. */
  lemma {:induction false} DelayGrowsToItsCap(p: RetryPolicy, a: int, b: int)
    requires p.Valid() && a <= b
    ensures 0.0 <= Delay(p, a) <= Delay(p, b) <= p.maxBackoff
    decreases b - a
  {
    DelayStep(p, b);
    if a < b {
      DelayGrowsToItsCap(p, a, b - 1);
      DelayStep(p, b - 1);
    }
  }

  function Lesser(x: real, y: real): real {
    if x <= y then x else y
  }

  /** No wait before the first attempt, the initial one before the second, and before each later
      attempt the multiple of the wait before it; never more than the cap. */
  lemma DelayMultiplies(p: RetryPolicy, n: nat)
    requires p.Valid()
    ensures n <= 1 ==> Delay(p, n) == 0.0
    ensures n == 2 ==> Delay(p, n) == Lesser(p.initial, p.maxBackoff)
    ensures n >= 2 ==> Delay(p, n + 1) == Lesser(p.multiplier * Delay(p, n), p.maxBackoff)
  {
    hide Pow;
    PowUnfolds(p.multiplier);
    if n >= 2 {
      var x, y := Pow(p.multiplier, n - 2), Pow(p.multiplier, n - 1);
      assert p.initial * (p.multiplier * x) == p.multiplier * (p.initial * x);
      if p.initial * x > p.maxBackoff {
        AtLeastOnce(p.multiplier, p.maxBackoff);
        AtLeastOnce(p.multiplier, p.initial * x);
      }
      if n == 2 {
        assert p.initial * 1.0 == p.initial;
      }
    }
  }

  lemma AtLeastOnce(m: real, x: real)
    requires m >= 1.0 && x >= 0.0
    ensures m * x >= x
  {
    assert m * x == x + (m - 1.0) * x;
  }

  lemma {:induction false} CapBound(p: RetryPolicy, k: nat)
    requires p.Valid() && k >= 1
    ensures 0.0 <= TotalDelay(p, k) <= (k - 1) as real * p.maxBackoff
  {
    hide Delay;
    if k > 1 {
      CapBound(p, k - 1);
      DelayGrowsToItsCap(p, 1, k);
      FirstDelay(p);
      OneMore((k - 2) as real, p.maxBackoff);
    }
  }

  lemma FirstDelay(p: RetryPolicy)
    ensures Delay(p, 1) == 0.0
  {
  }

  lemma OneMore(n: real, x: real)
    ensures (n + 1.0) * x == n * x + x
  {
  }

  lemma {:induction false} GeometricBound(p: RetryPolicy, k: nat)
    requires p.Valid() && k >= 1
    ensures TotalDelay(p, k) * (p.multiplier - 1.0) <= p.initial * (Pow(p.multiplier, k - 1) - 1.0)
  {
    hide RetryPolicy.Valid, Delay, Pow;
    PowUnfolds(p.multiplier);
    if k > 1 {
      GeometricBound(p, k - 1);
      Uncapped(p, k);
      GeometricStep(TotalDelay(p, k - 1), Delay(p, k), p.initial, p.multiplier, Pow(p.multiplier, k - 2));
    }
  }

  lemma PowUnfolds(x: real)
    ensures Pow(x, 0) == 1.0 && forall n: nat | n > 0 :: Pow(x, n) == x * Pow(x, n - 1)
  {
  }

  lemma Uncapped(p: RetryPolicy, k: nat)
    requires p.Valid() && k > 1
    ensures Delay(p, k) <= p.initial * Pow(p.multiplier, k - 2) && p.multiplier >= 1.0
  {
    hide Pow;
  }

  lemma GeometricStep(total: real, delay: real, initial: real, m: real, last: real)
    requires m >= 1.0 && delay <= initial * last && total * (m - 1.0) <= initial * (last - 1.0)
    ensures (total + delay) * (m - 1.0) <= initial * (m * last - 1.0)
  {
    var s := initial * last;
    var d := m - 1.0;
    assert (total + delay) * d == total * d + delay * d;
    assert delay * d <= s * d;
    assert initial * (last - 1.0) == s - initial;
    assert initial * (m * last - 1.0) == s * m - initial by {
      assert initial * (m * last) == s * m;
    }
    assert s * m == s * d + s;
  }

  lemma QuotientBound(x: real, y: real, d: real)
    requires d > 0.0 && x * d <= y
    ensures x <= y / d
  {
  }

  /** The whole sleep of an operation of `k` attempts: at most the cap for every retry, and at
      most the geometric sum of the uncapped delays. */
  lemma TotalDelayBounded(p: RetryPolicy, k: nat)
    requires p.Valid() && k >= 1
    ensures 0.0 <= TotalDelay(p, k) <= (k - 1) as real * p.maxBackoff
    ensures p.multiplier > 1.0 ==>
              TotalDelay(p, k) <= p.initial * (Pow(p.multiplier, k - 1) - 1.0) / (p.multiplier - 1.0)
  {
    hide TotalDelay, Pow;
    CapBound(p, k);
    GeometricBound(p, k);
    if p.multiplier > 1.0 {
      QuotientBound(TotalDelay(p, k), p.initial * (Pow(p.multiplier, k - 1) - 1.0), p.multiplier - 1.0);
    }
  }

  // ---------------------------------------------------------------------
  // Limits

  datatype Config = Config(
    maxSteps: nat,
    maxModelCalls: nat,
    maxToolCalls: nat,
    repeatedCallLimit: nat,
    failureLimit: nat,
    providerRetry: RetryPolicy,
    toolRetry: RetryPolicy,
    sideEffecting: set<string>,
    idempotent: set<string>)
  {
    /** The bounds of the fields and the validator of the tool sets. */
    predicate Valid() {
      && 1 <= maxSteps <= 100 && 1 <= maxModelCalls <= 200 && 1 <= maxToolCalls <= 1000
      && 1 <= repeatedCallLimit <= 100 && 1 <= failureLimit <= 100
      && providerRetry.Valid() && toolRetry.Valid()
      && CURRENT_SIDE_EFFECTS <= sideEffecting
      && idempotent <= sideEffecting
      && "create_support_ticket" !in idempotent
    }
  }

  const CURRENT_SIDE_EFFECTS := {"create_refund", "create_support_ticket"}

  predicate Whitespace(c: char) {
    var n := c as int;
    || 9 <= n <= 13 || 28 <= n <= 32 || n == 0x85 || n == 0xA0 || n == 0x1680
    || 0x2000 <= n <= 0x200A || n == 0x2028 || n == 0x2029 || n == 0x202F || n == 0x205F || n == 0x3000
  }

  /** `not text.strip()`. */
  predicate Blank(text: string) {
    forall c | c in text :: Whitespace(c)
  }

  /** `tool_retry_is_safe`. */
  predicate RetryIsSafe(config: Config, name: string, arguments: Json) {
    || name !in config.sideEffecting
    || (name in config.idempotent && arguments.Obj? && KeyOf(arguments).Some? && !Blank(KeyOf(arguments).value))
  }

  /** The idempotency key among the arguments. */
  function KeyOf(arguments: Json): Option<string>
    requires arguments.Obj?
  {
    match Lookup(arguments.fields, "idempotency_key")
    case Some(Str(key)) => Some(key)
    case _ => None
  }

  /** In no configuration that its validator accepts may a ticket be retried, nor a refund
      without a key. */
  lemma CurrentEffectsAreGuarded(config: Config, arguments: Json)
    requires config.Valid()
    ensures !RetryIsSafe(config, "create_support_ticket", arguments)
    ensures RetryIsSafe(config, "create_refund", arguments) ==>
              arguments.Obj? && KeyOf(arguments).Some? && !Blank(KeyOf(arguments).value)
  {
    assert "create_support_ticket" in CURRENT_SIDE_EFFECTS && "create_refund" in CURRENT_SIDE_EFFECTS;
  }

  /** The limits that hold when none are given. */
  const DEFAULTS := Config(8, 12, 32, 3, 3, RetryPolicy(3, 0.25, 2.0, 2.0), RetryPolicy(2, 0.25, 2.0, 2.0),
                           {"create_refund", "create_support_ticket"}, {"create_refund"})

  /** They are accepted; under them a provider turn waits at most 0.75 seconds in all and a tool call at
      most 0.25; every tool but the two is safe to retry, a refund with its key, a ticket never. */
  lemma DefaultsAreAccepted(name: string, arguments: Json)
    ensures DEFAULTS.Valid()
    ensures TotalDelay(DEFAULTS.providerRetry, 3) == 0.75 && TotalDelay(DEFAULTS.toolRetry, 2) == 0.25
    ensures RetryIsSafe(DEFAULTS, name, arguments) <==>
              || (name != "create_refund" && name != "create_support_ticket")
              || (&& name == "create_refund" && arguments.Obj? && KeyOf(arguments).Some?
                  && !Blank(KeyOf(arguments).value))
  {
    hide Blank;
    DelayMultiplies(DEFAULTS.providerRetry, 2);
    DelayMultiplies(DEFAULTS.toolRetry, 2);
  }

  // ---------------------------------------------------------------------
  // The controller

  datatype Reason =
    | ProviderFailure | ProviderTimeout | ProviderRetryExhausted | ToolTimeout | ToolFailure | RepeatedToolCall
    | ModelCallBudgetExhausted | ToolCallBudgetExhausted | StepBudgetExhausted | ConsecutiveFailureLimit
    | UnsafeRetryBlocked

  datatype Failure = Failure(provider: bool, kind: string, message: string, retryable: bool, attempt: nat,
                             toolName: Option<string>)

  /** The controller's counters, and the delay before each of its retries (none is slept when it is zero). */
  datatype Control = Control(
    modelCalls: nat,
    toolCalls: nat,
    retries: nat,
    failures: seq<Failure>,
    consecutive: nat,
    repeated: map<string, nat>,
    delays: seq<real>)

  const NO_CALLS := Control(0, 0, 0, [], 0, map[], [])

  function Repeats(c: Control, key: string): nat {
    if key in c.repeated then c.repeated[key] else 0
  }

  function Failed(c: Control, f: Failure): Control {
    c.(failures := c.failures + [f], consecutive := c.consecutive + 1)
  }

  function Succeeded(c: Control): Control {
    c.(consecutive := 0)
  }

  function Validated(c: Control, name: string, arguments: Json): Control {
    var key := CanonicalCall(name, arguments);
    c.(repeated := c.repeated[key := Repeats(c, key) + 1])
  }

  function Retried(c: Control, policy: RetryPolicy, next: nat): Control {
    c.(retries := c.retries + 1, delays := c.delays + [Delay(policy, next)])
  }

  class ReliabilityController {
    const config: Config
    var modelCalls: nat
    var toolCalls: nat
    var retries: nat
    var failures: seq<Failure>
    var consecutive: nat
    var repeated: map<string, nat>
    ghost var delays: seq<real>

    ghost function Contents(): Control
      reads this
    {
      Control(modelCalls, toolCalls, retries, failures, consecutive, repeated, delays)
    }

    constructor (config: Config)
      ensures this.config == config && Contents() == NO_CALLS
    {
      this.config := config;
      modelCalls, toolCalls, retries, failures := 0, 0, 0, [];
      consecutive, repeated, delays := 0, map[], [];
    }

    function ModelBudgetReason(): Option<Reason>
      reads this
    {
      if modelCalls >= config.maxModelCalls then Some(ModelCallBudgetExhausted) else None
    }

    function ToolBudgetReason(): Option<Reason>
      reads this
    {
      if toolCalls >= config.maxToolCalls then Some(ToolCallBudgetExhausted) else None
    }

    function RepeatedCallReason(name: string, arguments: Json): Option<Reason>
      reads this
    {
      var key := CanonicalCall(name, arguments);
      var count := if key in repeated then repeated[key] else 0;
      if count >= config.repeatedCallLimit then Some(RepeatedToolCall) else None
    }

    function FailureLimitReason(): Option<Reason>
      reads this
    {
      if consecutive >= config.failureLimit then Some(ConsecutiveFailureLimit) else None
    }

    method RecordValidatedCall(name: string, arguments: Json)
      modifies this
      ensures Contents() == Validated(old(Contents()), name, arguments)
    {
      hide CanonicalCall;
      var key := CanonicalCall(name, arguments);
      repeated := repeated[key := (if key in repeated then repeated[key] else 0) + 1];
    }

    method RecordFailure(f: Failure)
      modifies this
      ensures Contents() == Failed(old(Contents()), f)
    {
      failures := failures + [f];
      consecutive := consecutive + 1;
    }

    method RecordSuccess()
      modifies this
      ensures Contents() == Succeeded(old(Contents()))
    {
      consecutive := 0;
    }

    method Retry(policy: RetryPolicy, next: nat)
      modifies this
      ensures Contents() == Retried(old(Contents()), policy, next)
    {
      retries := retries + 1;
      delays := delays + [Delay(policy, next)];
    }
  }
}
