/** The planner loop by the replies it gets: how often it asks, what it counts, and what it ends
    with. */
module Planning {
  import opened Plans
  import opened Graphs
  import opened Memory
  import opened Scheduler
  import opened Graph

  /** A failure that may pass, or not. */
  predicate Fails(reply: PlannerReply, retryable: bool) {
    !reply.Planned? && reply.retryable == retryable
  }

  /** The model-call budget is spent after this many calls of the loop. */
  predicate Spent(env: Env, c: Counters, calls: nat) {
    env.usesModel && c.modelCalls + calls >= env.config.maxModelCalls
  }

  /** The `j`-th reply is a failure that may pass, and could be asked for. */
  predicate Retries(env: Env, c: Counters, j: nat) {
    !Spent(env, c, j) && Fails(env.planner(c.plannerCalls + j), true)
  }

  /** After `calls` calls and `retries` retries among them. */
  function Tallied(env: Env, c: Counters, calls: nat, retries: nat, failures: nat): Counters {
    c.(plannerCalls := c.plannerCalls + calls, modelCalls := c.modelCalls + if env.usesModel then calls else 0,
       retries := c.retries + retries, failures := c.failures + failures)
  }

  /** What the loop comes to with the reply that ends it. */
  ghost predicate Concludes(env: Env, c: Counters, n: nat, p: Planning) {
    if Spent(env, c, n) then
      p == PlanStopped(ModelCallBudgetExhausted, "Planner model-call budget was exhausted.", Tallied(env, c, n, n, n))
    else
      match env.planner(c.plannerCalls + n)
      case Planned(plan) =>
        DistinctIds(plan.tasks) &&
        var g := Dependencies(plan.tasks);
        if Closed(g) && NoSelfLoop(g) && Acyclic(g) then p == PlanReady(plan, Tallied(env, c, n + 1, n, n))
        else
          p == PlanStopped(if Closed(g) && NoSelfLoop(g) then CyclicDependency else InvalidDependency,
                           "Planner produced an invalid dependency graph.", Tallied(env, c, n + 1, n, n + 1))
      case PlanningFailed(_) =>
        p == PlanStopped(InvalidPlan, "Planner failed to produce a usable structured plan.",
                         Tallied(env, c, n + 1, n, n + 1))
      case ProviderFailed(_) =>
        p == PlanStopped(ProviderFailure, "Planner failed to produce a usable structured plan.",
                         Tallied(env, c, n + 1, n, n + 1))
  }

  function AfterRetry(env: Env, c: Counters): Counters {
    Tallied(env, c, 1, 1, 1)
  }

  /** One more retry before the same conclusion. */
  lemma ConcludesLater(env: Env, c: Counters, n: nat, p: Planning)
    requires Concludes(env, AfterRetry(env, c), n, p)
    ensures Concludes(env, c, n + 1, p)
  {
    hide Closed, NoSelfLoop, Acyclic, Dependencies, DistinctIds;
    var d := AfterRetry(env, c);
    assert d.plannerCalls + n == c.plannerCalls + (n + 1);
    assert Spent(env, d, n) == Spent(env, c, n + 1);
    assert Tallied(env, d, n, n, n) == Tallied(env, c, n + 1, n + 1, n + 1);
    assert Tallied(env, d, n + 1, n, n) == Tallied(env, c, n + 2, n + 1, n + 1);
    assert Tallied(env, d, n + 1, n, n + 1) == Tallied(env, c, n + 2, n + 1, n + 2);
  }

  lemma ConcludesNow(env: Env, c: Counters, attempt: nat)
    requires env.Valid() && 1 <= attempt <= env.config.plannerAttempts
    ensures Retries(env, c, 0) && attempt < env.config.plannerAttempts ==>
              Plan(env, c, attempt) == Plan(env, AfterRetry(env, c), attempt + 1)
    ensures !(Retries(env, c, 0) && attempt < env.config.plannerAttempts) ==>
              Concludes(env, c, 0, Plan(env, c, attempt))
  {
    hide Closed, NoSelfLoop, Acyclic, ValidTask, Dependencies;
  }

  /** From attempt `attempt` on the loop retries `n` failures that may pass, as long as attempts and
      model calls are left, and then ends with the next reply, or for want of a model call. */
  lemma {:induction false} PlanByTheReplies(env: Env, c: Counters, attempt: nat) returns (n: nat)
    requires env.Valid() && 1 <= attempt <= env.config.plannerAttempts
    ensures attempt + n <= env.config.plannerAttempts
    ensures forall j: nat | j < n :: Retries(env, c, j)
    ensures Retries(env, c, n) ==> attempt + n == env.config.plannerAttempts
    ensures Concludes(env, c, n, Plan(env, c, attempt))
    decreases env.config.plannerAttempts - attempt
  {
    hide Concludes, Plan, Env.Valid;
    n := 0;
    ConcludesNow(env, c, attempt);
    if Retries(env, c, 0) && attempt < env.config.plannerAttempts {
      var d := AfterRetry(env, c);
      n := PlanByTheReplies(env, d, attempt + 1);
      forall j: nat | j < n + 1 ensures Retries(env, c, j) {
        if j > 0 {
          assert Retries(env, d, j - 1);
        }
      }
      ConcludesLater(env, c, n, Plan(env, c, attempt));
      n := n + 1;
    }
  }
}
