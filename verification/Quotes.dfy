/** When a review speaks of a missing completion: never on its own account. */
module Quotes {
  import opened Options
  import opened Json
  import opened Plans
  import opened Memory
  import opened Review
  import opened Scheduler
  import opened Graph
  import opened Answers
  import opened Runs
  import opened Justified
  import opened Origins
  import opened Verdicts

  predicate SaysMissing(failureType: Option<string>) {
    failureType == Some(MISSING)
  }

  /** A failure of that type which the reviewer passes on. */
  predicate Mentions(e: ToolEvidence) {
    && !e.ok && SaysMissing(e.failureType)
    && !(e.retryable && e.ambiguous && e.toolName == "create_support_ticket")
  }

  lemma NamesDiffer()
    ensures !SaysMissing(Some(UNSAFE_RETRY)) && !SaysMissing(Some(INSUFFICIENT)) && !SaysMissing(Some(DENIED))
    ensures !SaysMissing(Some("tool_failure")) && !SaysMissing(Some("executor_failure")) && MISSING != ""
  {
    assert |MISSING| == 27 && |UNSAFE_RETRY| == 20 && |INSUFFICIENT| == 21 && |DENIED| == 28;
    assert |"tool_failure"| == 12 && |"executor_failure"| == 16;
  }

  /** Each review speaks of a missing completion exactly when the failure it reviewed did. */
  ghost predicate Quoted(s: State) {
    && |s.memory.reviews| <= |s.memory.evidence|
    && forall i | 0 <= i < |s.memory.reviews| ::
         SaysMissing(s.memory.reviews[i].failureType) <==> Mentions(s.memory.evidence[i])
  }

  lemma JudgedIsQuoted(r: ReviewResult, e: ToolEvidence, objective: string)
    requires Judges(r, e, objective)
    ensures SaysMissing(r.failureType) <==> Mentions(e)
  {
    NamesDiffer();
  }

  /** At every moment of every run with the evidence reviewer: a review speaks of a missing
      completion exactly when it passes on a failure of that type that a tool reported. Its own
      branch for a missing completion is never taken. */
  lemma MissingIsQuoted(env: Env, k: nat)
    requires Wired(env)
    ensures Quoted(At(env, k).state)
  {
    hide At, Env.Valid, Env.FreshPlans, Mentions, SaysMissing, Judges;
    AlwaysJudged(env, k);
    var s := At(env, k).state;
    forall i | 0 <= i < |s.memory.reviews|
      ensures SaysMissing(s.memory.reviews[i].failureType) <==> Mentions(s.memory.evidence[i])
    {
      assert JudgedAt(s, i);
      var objective :| Judges(s.memory.reviews[i], s.memory.evidence[i], objective);
      JudgedIsQuoted(s.memory.reviews[i], s.memory.evidence[i], objective);
    }
  }

  // ---------------------------------------------------------------------
  // Tools that never say so

  ghost predicate SpeaksOfMissing(reply: ToolReply) {
    exists retryable, ambiguous :: FailedWith(reply, "missing_completion_response", retryable, ambiguous)
  }

  lemma SilenceIsFree(env: Env)
    requires forall i: nat :: !SpeaksOfMissing(env.tools(i))
    ensures Free(env, Mentions)
  {
    hide EvidenceOf, ResultOf, FailedWith, Gave;
    assert |MISSING| != |"unknown_tool"| && |MISSING| != |"invalid_evidence_reference"|;
    forall task: PlanTask, tool: string, i: nat ensures !Mentions(EvidenceOf(task, tool, ResultOf(env.tools(i)))) {
      EvidenceIsMade(task, tool, env.tools(i));
      assert !SpeaksOfMissing(env.tools(i));
    }
  }

  /** With tools that never report that type, no review ever speaks of a missing completion. */
  lemma CompletionIsNeverMissing(env: Env, k: nat, i: nat)
    requires Wired(env) && forall j: nat :: !SpeaksOfMissing(env.tools(j))
    ensures var reviews := At(env, k).state.memory.reviews;
            i < |reviews| ==> reviews[i].failureType != Some(MISSING)
  {
    hide At, Env.Valid, Env.FreshPlans, Mentions, Free, SpeaksOfMissing;
    MissingIsQuoted(env, k);
    SilenceIsFree(env);
    AlwaysClear(env, Mentions, k);
  }
}
