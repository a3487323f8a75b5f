/** The evidence reviewer, the claims it checks, and the completion text built from evidence. */
module Review {
  import opened Options
  import opened Json
  import opened Plans
  import opened Memory

  // ---------------------------------------------------------------------
  // What the evidence supports

  /** Python truth of an optional value. */
  predicate Truthy(v: Option<Json>) {
    match v
    case None => false
    case Some(j) =>
      match j
      case Null => false
      case Bool(b) => b
      case Int(n) => n != 0
      case Float(t) => exists c | c in t :: '1' <= c <= '9'
      case Str(s) => s != ""
      case Arr(items) => items != []
      case Obj(fs) => fs != []
  }

  function RefundField(data: Fields): Option<Json> {
    var status := Lookup(data, "refund_status");
    if Truthy(status) then status else Lookup(data, "status")
  }

  predicate RefundVerdict(status: Option<Json>) {
    status == Some(Str("approved")) || status == Some(Str("pending_human_approval"))
  }

  /** `_refund_status`: the latest refund verdict among successful evidence. */
  function RefundStatus(evidence: seq<ToolEvidence>): (r: Option<string>)
    ensures r.Some? ==> r.value == "approved" || r.value == "pending_human_approval"
  {
    if evidence == [] then None
    else
      var last := evidence[|evidence| - 1];
      if last.ok && RefundVerdict(RefundField(last.data)) then Some(RefundField(last.data).value.s)
      else RefundStatus(evidence[..|evidence| - 1])
  }

  /** The evidence carries a refund verdict. */
  predicate Decides(e: ToolEvidence) {
    e.ok && RefundVerdict(RefundField(e.data))
  }

  /** The reported status is that of the latest evidence that carries one; there is none exactly
      when no evidence does. */
  lemma {:induction false} RefundStatusIsLatest(evidence: seq<ToolEvidence>)
    ensures RefundStatus(evidence).None? <==> forall i | 0 <= i < |evidence| :: !Decides(evidence[i])
    ensures RefundStatus(evidence).Some? ==>
              exists i | 0 <= i < |evidence| ::
                && Decides(evidence[i]) && RefundField(evidence[i].data) == Some(Str(RefundStatus(evidence).value))
                && forall j | i < j < |evidence| :: !Decides(evidence[j])
  {
    hide RefundVerdict, RefundField;
    if evidence != [] {
      var last := |evidence| - 1;
      RefundStatusIsLatest(evidence[..last]);
      VerdictIsText(evidence[last].data);
      if !Decides(evidence[last]) && RefundStatus(evidence).Some? {
        var i :| 0 <= i < last && Decides(evidence[..last][i])
                 && RefundField(evidence[..last][i].data) == Some(Str(RefundStatus(evidence).value))
                 && forall j | i < j < last :: !Decides(evidence[..last][j]);
        assert forall j | i < j < last :: evidence[..last][j] == evidence[j];
        assert evidence[i] == evidence[..last][i];
      }
    }
  }

  lemma VerdictIsText(data: Fields)
    ensures RefundVerdict(RefundField(data)) ==> RefundField(data).Some? && RefundField(data).value.Str?
  {
    hide RefundField;
  }

  /** `_has_ticket`. */
  predicate HasTicket(evidence: seq<ToolEvidence>) {
    exists e | e in evidence ::
      e.ok && e.toolName == "create_support_ticket" && Lookup(e.data, "status") == Some(Str("open"))
  }

  // ---------------------------------------------------------------------
  // Claims

  function LowerChar(c: char): char {
    if 'A' <= c <= 'Z' then (c as int + 32) as char else c
  }

  function Lower(s: string): (r: string)
    ensures |r| == |s| && forall i | 0 <= i < |s| :: r[i] == LowerChar(s[i])
  {
    seq(|s|, i requires 0 <= i < |s| => LowerChar(s[i]))
  }

  predicate StartsWith(text: string, part: string) {
    |part| <= |text| && text[..|part|] == part
  }

  predicate Contains(text: string, part: string) {
    StartsWith(text, part) || (text != "" && Contains(text[1..], part))
  }

  const COMPLETION_CLAIMS: seq<string> :=
    ["refund completed", "refund was approved", "refund was issued", "refund issued", "approved refund"]

  const TICKET_CLAIMS: seq<string> := ["ticket created", "ticket was created", "ticket opened"]

  predicate Claims(text: string, claims: seq<string>) {
    exists i | 0 <= i < |claims| :: Contains(Lower(text), claims[i])
  }

  /** `has_unsupported_claim`. */
  predicate HasUnsupportedClaim(response: string, evidence: seq<ToolEvidence>) {
    || (RefundStatus(evidence) != Some("approved") && Claims(response, COMPLETION_CLAIMS))
    || (Claims(response, TICKET_CLAIMS) && !HasTicket(evidence))
  }

  const REFUND_COMPLETED := "The refund completed " + "successfully."
  const REFUND_PENDING := "The refund request is " + ("pending human approval " + "and has not completed.")
  const REFUND_NONE := "No completed refund " + ("is supported by the " + "available evidence.")
  const TICKET_CREATED := " A support ticket was " + ("created and " + "remains open.")
  const TICKET_NONE := " No support-ticket " + ("creation is supported by " + "the available evidence.")

  /** `build_final_response`. */
  function BuildFinalResponse(evidence: seq<ToolEvidence>): string {
    var refund :=
      match RefundStatus(evidence)
      case None => REFUND_NONE
      case Some(s) => if s == "approved" then REFUND_COMPLETED else REFUND_PENDING;
    refund + if HasTicket(evidence) then TICKET_CREATED else TICKET_NONE
  }

  // ---------------------------------------------------------------------
  // Review

  predicate AllCompleted(tasks: seq<PlanTask>) {
    forall t | t in tasks :: t.status == Completed
  }

  /** Python's `o or default`: an empty string gives way too. */
  function Or(o: Option<string>, default: string): string {
    if o.Some? && o.value != "" then o.value else default
  }

  const UNSAFE_RETRY := "unsafe_retry_blocked"
  const DENIED := "unsupported_completion_claim"
  const MISSING := "missing_completion_response"
  const INSUFFICIENT := "insufficient_evidence"

  const AMBIGUOUS_TEXT := "A non-idempotent side effect has an ambiguous outcome."
  const RETRYABLE_TEXT := "Retryable executor evidence requires reflection and replanning."
  const PERMANENT_TEXT := "The task failed with a permanent validation, tool, or business error."
  const INSUFFICIENT_TEXT := "The executor reported success without usable evidence."
  const MISSING_TEXT := "No candidate completion was available for final review."
  const DENIED_TEXT := "The proposed completion is not supported by business evidence."
  const COMPLETE_TEXT := "All planned tasks completed and the final claims match evidence."
  const CONTINUE_TEXT := "The current task is supported; dependency-ready work remains."

  /** `EvidenceReviewer.review`. */
  function EvidenceReview(tasks: seq<PlanTask>, current: PlanTask, evidence: seq<ToolEvidence>,
                          candidate: Option<string>): ReviewResult
  {
    var last := if evidence == [] then None else Some(evidence[|evidence| - 1]);
    if current.status == Failed then
      if last.Some? && last.value.retryable then
        if last.value.ambiguous && last.value.toolName == "create_support_ticket" then
          ReviewResult(false, Fail, Some(UNSAFE_RETRY),
                       AMBIGUOUS_TEXT, [], None)
        else
          ReviewResult(false, Reflect, Some(Or(last.value.failureType, "tool_failure")),
                       RETRYABLE_TEXT, [], Some(Replan))
      else
        ReviewResult(false, Fail, Some(Or(current.failureReason, "executor_failure")),
                     PERMANENT_TEXT, [], None)
    else if current.call.Some? && (last.None? || !last.value.ok || last.value.data == []) then
      ReviewResult(false, Reflect, Some(INSUFFICIENT),
                   INSUFFICIENT_TEXT, [current.objective], Some(Replan))
    else if AllCompleted(tasks) then
      match candidate
      case None =>
        ReviewResult(false, Fail, Some(MISSING),
                     MISSING_TEXT, [], None)
      case Some(response) =>
        if HasUnsupportedClaim(response, evidence) then
          ReviewResult(false, Fail, Some(DENIED),
                       DENIED_TEXT, [], None)
        else
          ReviewResult(true, Complete, None,
                       COMPLETE_TEXT, [], None)
    else
      ReviewResult(false, Continue, None,
                   CONTINUE_TEXT, [], None)
  }
}
