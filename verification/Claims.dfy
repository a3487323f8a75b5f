/** The default completion text never claims more than the evidence supports. */
module Claims {
  import opened Options
  import opened Json
  import opened Memory
  import opened Review

  // ---------------------------------------------------------------------
  // Excluding a phrase by one of its letters

  ghost predicate OccursAt(text: string, part: string, i: int) {
    0 <= i && i + |part| <= |text| && forall k | 0 <= k < |part| :: text[i + k] == part[k]
  }

  lemma StartsIffOccursFirst(text: string, part: string)
    ensures StartsWith(text, part) <==> OccursAt(text, part, 0)
  {
    if OccursAt(text, part, 0) {
      assert text[..|part|] == part;
    }
  }

  lemma {:induction false} ContainsIffOccurs(text: string, part: string)
    ensures Contains(text, part) <==> exists i :: OccursAt(text, part, i)
  {
    StartsIffOccursFirst(text, part);
    if !StartsWith(text, part) && text != "" {
      ContainsIffOccurs(text[1..], part);
      forall i ensures OccursAt(text, part, i) <==> i > 0 && OccursAt(text[1..], part, i - 1) {
      }
      if Contains(text[1..], part) {
        var i :| OccursAt(text[1..], part, i);
        assert OccursAt(text, part, i + 1);
      }
    }
  }

  /** Among the lower-cased characters of `text`, `c` stands nowhere but at `at`. */
  ghost predicate OnlyAt(text: string, c: char, at: int) {
    forall i | 0 <= i < |text| && LowerChar(text[i]) == c :: i == at
  }

  /** A phrase with the letter `c` at `offset` could stand in only one place, and does not
      when some other letter differs there. */
  lemma Excluded(text: string, part: string, c: char, at: int, offset: nat, other: nat)
    requires OnlyAt(text, c, at)
    requires offset < |part| && part[offset] == c && other < |part|
    requires 0 <= at - offset + other < |text| ==> LowerChar(text[at - offset + other]) != part[other]
    ensures !Contains(Lower(text), part)
  {
    ContainsIffOccurs(Lower(text), part);
    forall i ensures !OccursAt(Lower(text), part, i) {
      AnchoredAt(text, part, c, at, offset, i);
    }
  }

  lemma AnchoredAt(text: string, part: string, c: char, at: int, offset: nat, i: int)
    requires OnlyAt(text, c, at) && offset < |part| && part[offset] == c
    ensures OccursAt(Lower(text), part, i) ==>
              i + offset == at && forall k | 0 <= k < |part| :: LowerChar(text[at - offset + k]) == part[k]
  {
    if OccursAt(Lower(text), part, i) {
      assert Lower(text)[i + offset] == part[offset];
    }
  }

  // ---------------------------------------------------------------------
  // The texts

  lemma PendingF()
    ensures OnlyAt(REFUND_PENDING, 'f', 6)
    ensures REFUND_PENDING[2] == 'e' && REFUND_PENDING[11] == 'r'
  {
    assert OnlyAt("The refund request is ", 'f', 6);
    assert OnlyAt("pending human approval ", 'f', -1);
    assert OnlyAt("and has not completed.", 'f', -1);
  }

  lemma NoneF()
    ensures OnlyAt(REFUND_NONE, 'f', 15)
    ensures REFUND_NONE[9] == 't' && REFUND_NONE[20] == 'i' && REFUND_NONE[22] == ' '
  {
    assert OnlyAt("No completed refund ", 'f', 15);
    assert OnlyAt("is supported by the ", 'f', -1);
    assert OnlyAt("available evidence.", 'f', -1);
  }

  lemma PendingLacksK()
    ensures OnlyAt(REFUND_PENDING, 'k', -1)
  {
    assert OnlyAt("The refund request is ", 'k', -1);
    assert OnlyAt("pending human approval ", 'k', -1);
    assert OnlyAt("and has not completed.", 'k', -1);
  }

  lemma NoneLacksK()
    ensures OnlyAt(REFUND_NONE, 'k', -1)
  {
    assert OnlyAt("No completed refund ", 'k', -1);
    assert OnlyAt("is supported by the ", 'k', -1);
    assert OnlyAt("available evidence.", 'k', -1);
  }

  lemma RefundTextsLackK()
    ensures OnlyAt(REFUND_COMPLETED, 'k', -1) && OnlyAt(REFUND_PENDING, 'k', -1) && OnlyAt(REFUND_NONE, 'k', -1)
  {
    PendingLacksK();
    NoneLacksK();
    assert OnlyAt("The refund completed ", 'k', -1) && OnlyAt("successfully.", 'k', -1);
  }

  lemma TicketTextsLackF()
    ensures OnlyAt(TICKET_CREATED, 'f', -1) && OnlyAt(TICKET_NONE, 'f', -1)
  {
    NoTicketLacksF();
    assert OnlyAt(" A support ticket was ", 'f', -1);
    assert OnlyAt("created and ", 'f', -1) && OnlyAt("remains open.", 'f', -1);
  }

  lemma NoTicketLacksF()
    ensures OnlyAt(TICKET_NONE, 'f', -1)
  {
    assert OnlyAt(" No support-ticket ", 'f', -1);
    assert OnlyAt("creation is supported by ", 'f', -1);
    assert OnlyAt("the available evidence.", 'f', -1);
  }

  lemma NoTicketK()
    ensures OnlyAt(TICKET_NONE, 'k', 15) && |TICKET_NONE| > 24
    ensures TICKET_NONE[19] == 'c' && TICKET_NONE[24] == 'i'
  {
    assert OnlyAt(" No support-ticket ", 'k', 15);
    assert OnlyAt("creation is supported by ", 'k', -1);
    assert OnlyAt("the available evidence.", 'k', -1);
  }

  lemma LetterBehind(a: string, b: string, c: char, at: int)
    requires OnlyAt(a, c, -1) && OnlyAt(b, c, at)
    ensures OnlyAt(a + b, c, |a| + at)
  {
  }

  lemma LetterAhead(a: string, b: string, c: char, at: int)
    requires OnlyAt(a, c, at) && OnlyAt(b, c, -1)
    ensures OnlyAt(a + b, c, at)
  {
  }

  // ---------------------------------------------------------------------
  // The phrases

  /** With one `f`, a text can hold a completion claim only around it, and the letters
      beside it forbid that. */
  lemma NoCompletionAround(text: string, at: nat)
    requires OnlyAt(text, 'f', at) && 6 <= at && at + 7 < |text|
    requires text[at + 5] == 'r' || (text[at + 5] == 'i' && text[at + 7] == ' ')
    requires text[at - 4] == 'e' || text[at - 6] == 't'
    ensures !Claims(text, COMPLETION_CLAIMS)
  {
    Excluded(text, "refund completed", 'f', at, 2, 7);
    Excluded(text, "refund was approved", 'f', at, 2, 7);
    Excluded(text, "refund was issued", 'f', at, 2, 7);
    Excluded(text, "refund issued", 'f', at, 2, if text[at + 5] == 'r' then 7 else 9);
    Excluded(text, "approved refund", 'f', at, 11, if text[at - 4] == 'e' then 7 else 5);
  }

  lemma PendingClaimsNoCompletion(ticket: string)
    requires OnlyAt(ticket, 'f', -1)
    ensures !Claims(REFUND_PENDING + ticket, COMPLETION_CLAIMS)
  {
    PendingF();
    LetterAhead(REFUND_PENDING, ticket, 'f', 6);
    NoCompletionAround(REFUND_PENDING + ticket, 6);
  }

  lemma NoneClaimsNoCompletion(ticket: string)
    requires OnlyAt(ticket, 'f', -1)
    ensures !Claims(REFUND_NONE + ticket, COMPLETION_CLAIMS)
  {
    NoneF();
    LetterAhead(REFUND_NONE, ticket, 'f', 15);
    NoCompletionAround(REFUND_NONE + ticket, 15);
  }

  lemma NoTicketClaim(refund: string)
    requires OnlyAt(refund, 'k', -1)
    ensures !Claims(refund + TICKET_NONE, TICKET_CLAIMS)
  {
    hide TICKET_NONE, Lower;
    var text, at := refund + TICKET_NONE, |refund| + 15;
    NoTicketK();
    LetterBehind(refund, TICKET_NONE, 'k', 15);
    assert text[at + 4] == TICKET_NONE[19] && text[at + 9] == TICKET_NONE[24];
    Excluded(text, "ticket created", 'k', at, 3, 12);
    Excluded(text, "ticket was created", 'k', at, 3, 7);
    Excluded(text, "ticket opened", 'k', at, 3, 7);
  }

  /** Whatever the memory, the built text passes the reviewer's claim check. */
  lemma BuiltResponseIsSupported(evidence: seq<ToolEvidence>)
    ensures !HasUnsupportedClaim(BuildFinalResponse(evidence), evidence)
  {
    RefundTextsLackK();
    TicketTextsLackF();
    var status := RefundStatus(evidence);
    var refund := if status.None? then REFUND_NONE
                  else if status.value == "approved" then REFUND_COMPLETED else REFUND_PENDING;
    var ticket := if HasTicket(evidence) then TICKET_CREATED else TICKET_NONE;
    assert BuildFinalResponse(evidence) == refund + ticket;
    if status.None? {
      NoneClaimsNoCompletion(ticket);
    } else if status.value != "approved" {
      PendingClaimsNoCompletion(ticket);
    }
    if !HasTicket(evidence) {
      NoTicketClaim(refund);
    }
  }

  /** The check is not idle: the text for an approved refund does claim completion, and is
      refused when the evidence does not show approval. */
  lemma CompletionTextIsRefusedWithoutApproval(evidence: seq<ToolEvidence>)
    requires RefundStatus(evidence) != Some("approved")
    ensures HasUnsupportedClaim(REFUND_COMPLETED + TICKET_NONE, evidence)
  {
    var text := REFUND_COMPLETED + TICKET_NONE;
    var part := "refund completed";
    forall k | 0 <= k < |part| ensures Lower(text)[4 + k] == part[k] {
      assert text[4 + k] == "The refund completed "[4 + k];
    }
    assert OccursAt(Lower(text), part, 4);
    ContainsIffOccurs(Lower(text), part);
    assert COMPLETION_CLAIMS[0] == part;
  }

  // ---------------------------------------------------------------------
  // What the check and the text are about

  ghost predicate SameLetter(c: char, small: char) {
    c == small || ('a' <= small <= 'z' && c as int + 32 == small as int)
  }

  /** The phrase stands somewhere in the text, in small or capital letters. */
  ghost predicate Says(text: string, phrase: string) {
    exists i :: SaysAt(text, phrase, i)
  }

  ghost predicate SaysAt(text: string, phrase: string, i: int) {
    0 <= i && i + |phrase| <= |text| && forall k | 0 <= k < |phrase| :: SameLetter(text[i + k], phrase[k])
  }

  ghost predicate Small(phrase: string) {
    forall k | 0 <= k < |phrase| :: phrase[k] == ' ' || 'a' <= phrase[k] <= 'z'
  }

  lemma SaysIffContains(text: string, phrase: string)
    requires Small(phrase)
    ensures Contains(Lower(text), phrase) <==> Says(text, phrase)
  {
    ContainsIffOccurs(Lower(text), phrase);
    forall i ensures OccursAt(Lower(text), phrase, i) <==> SaysAt(text, phrase, i) {
    }
  }

  /** An absent, empty or zero value, as Python's truth has it. */
  ghost predicate Falsy(v: Option<Json>) {
    || v in {None, Some(Null), Some(Bool(false)), Some(Int(0)), Some(Str("")), Some(Arr([])), Some(Obj([]))}
    || (v.Some? && v.value.Float? && forall c | c in v.value.text :: !('1' <= c <= '9'))
  }

  /** Successful evidence that gives the refund this status. */
  ghost predicate Shows(e: ToolEvidence, status: string) {
    && e.ok
    && (|| Lookup(e.data, "refund_status") == Some(Str(status))
        || (Falsy(Lookup(e.data, "refund_status")) && Lookup(e.data, "status") == Some(Str(status))))
  }

  /** The latest verdict in the evidence is this one. */
  ghost predicate Decided(evidence: seq<ToolEvidence>, status: string) {
    exists i ::
      && 0 <= i < |evidence| && Shows(evidence[i], status)
      && forall j | i < j < |evidence| ::
           !Shows(evidence[j], "approved") && !Shows(evidence[j], "pending_human_approval")
  }

  ghost predicate TicketIsOpen(evidence: seq<ToolEvidence>) {
    exists i ::
      && 0 <= i < |evidence| && evidence[i].ok && evidence[i].toolName == "create_support_ticket"
      && Lookup(evidence[i].data, "status") == Some(Str("open"))
  }

  lemma FalsyIsUntrue(v: Option<Json>)
    ensures Falsy(v) <==> !Truthy(v)
  {
  }

  lemma ShowsIsVerdict(e: ToolEvidence, status: string)
    requires status == "approved" || status == "pending_human_approval"
    ensures Shows(e, status) <==> Decides(e) && RefundField(e.data) == Some(Str(status))
    ensures Decides(e) <==> Shows(e, "approved") || Shows(e, "pending_human_approval")
  {
    hide Lookup, Truthy;
    FalsyIsUntrue(Lookup(e.data, "refund_status"));
    assert "approved" != "" && "pending_human_approval" != "";
    TruthyText("approved");
    TruthyText("pending_human_approval");
  }

  lemma TruthyText(s: string)
    ensures Truthy(Some(Str(s))) <==> s != ""
  {
  }

  lemma DecidedIsStatus(evidence: seq<ToolEvidence>, status: string)
    requires status == "approved" || status == "pending_human_approval"
    ensures Decided(evidence, status) <==> RefundStatus(evidence) == Some(status)
  {
    hide Shows, Decides, RefundField, RefundStatus;
    forall i | 0 <= i < |evidence|
      ensures Shows(evidence[i], status) <==> Decides(evidence[i]) && RefundField(evidence[i].data) == Some(Str(status))
      ensures Decides(evidence[i]) <==>
              Shows(evidence[i], "approved") || Shows(evidence[i], "pending_human_approval")
    {
      ShowsIsVerdict(evidence[i], status);
    }
    RefundStatusIsLatest(evidence);
    if RefundStatus(evidence).Some? {
      var i :| && 0 <= i < |evidence| && Decides(evidence[i])
               && RefundField(evidence[i].data) == Some(Str(RefundStatus(evidence).value))
               && forall j | i < j < |evidence| :: !Decides(evidence[j]);
      if Decided(evidence, status) {
        var k :| && 0 <= k < |evidence| && Shows(evidence[k], status)
                 && forall j | k < j < |evidence| ::
                      !Shows(evidence[j], "approved") && !Shows(evidence[j], "pending_human_approval");
        assert i == k;
      }
    }
  }

  lemma TicketIsOnRecord(evidence: seq<ToolEvidence>)
    ensures TicketIsOpen(evidence) <==> HasTicket(evidence)
  {
    hide Lookup;
    if HasTicket(evidence) {
      var e :| && e in evidence && e.ok && e.toolName == "create_support_ticket"
               && Lookup(e.data, "status") == Some(Str("open"));
      var i :| 0 <= i < |evidence| && evidence[i] == e;
    }
  }

  /** The phrases that claim a refund, and those that claim a ticket. */
  ghost predicate ClaimsRefund(text: string) {
    || Says(text, "refund completed") || Says(text, "refund was approved") || Says(text, "refund was issued")
    || Says(text, "refund issued") || Says(text, "approved refund")
  }

  ghost predicate ClaimsTicket(text: string) {
    Says(text, "ticket created") || Says(text, "ticket was created") || Says(text, "ticket opened")
  }

  lemma ClaimsAreSaid(text: string)
    ensures Claims(text, COMPLETION_CLAIMS) <==> ClaimsRefund(text)
    ensures Claims(text, TICKET_CLAIMS) <==> ClaimsTicket(text)
  {
    hide Contains, Says, Lower;
    var cs, ts := COMPLETION_CLAIMS, TICKET_CLAIMS;
    forall i | 0 <= i < |cs| ensures Contains(Lower(text), cs[i]) <==> Says(text, cs[i]) {
      SaysIffContains(text, cs[i]);
    }
    forall i | 0 <= i < |ts| ensures Contains(Lower(text), ts[i]) <==> Says(text, ts[i]) {
      SaysIffContains(text, ts[i]);
    }
    assert cs[0] == "refund completed" && cs[1] == "refund was approved" && cs[2] == "refund was issued";
    assert cs[3] == "refund issued" && cs[4] == "approved refund";
    assert ts[0] == "ticket created" && ts[1] == "ticket was created" && ts[2] == "ticket opened";
  }

  /** A response is refused exactly when it claims a refund whose latest verdict is not approval, or
      a ticket of which no evidence says it is open. */
  lemma ClaimsAreChecked(response: string, evidence: seq<ToolEvidence>)
    ensures HasUnsupportedClaim(response, evidence) <==>
            || (ClaimsRefund(response) && !Decided(evidence, "approved"))
            || (ClaimsTicket(response) && !TicketIsOpen(evidence))
  {
    hide ClaimsRefund, ClaimsTicket, Decided, TicketIsOpen, Claims, RefundStatus, HasTicket;
    ClaimsAreSaid(response);
    DecidedIsStatus(evidence, "approved");
    TicketIsOnRecord(evidence);
  }

  // ---------------------------------------------------------------------
  // The text says neither too much nor too little

  lemma SaidAt(text: string, phrase: string, i: nat)
    requires i + |phrase| <= |text| && text[i..i + |phrase|] == phrase
    ensures Says(text, phrase)
  {
    forall k | 0 <= k < |phrase| ensures text[i + k] == phrase[k] {
      assert text[i..i + |phrase|][k] == text[i + k];
    }
    assert SaysAt(text, phrase, i);
  }

  lemma LetterSaid(text: string, phrase: string, i: int, k: nat)
    requires SaysAt(text, phrase, i) && k < |phrase| && 'a' <= phrase[k] <= 'z'
    ensures 0 <= i + k < |text| && LowerChar(text[i + k]) == phrase[k]
  {
    assert SameLetter(text[i + k], phrase[k]);
  }

  lemma UnsaidWithout(text: string, phrase: string, k: nat)
    requires k < |phrase| && 'a' <= phrase[k] <= 'z' && OnlyAt(text, phrase[k], -1)
    ensures !Says(text, phrase)
  {
    forall i ensures !SaysAt(text, phrase, i) {
      if SaysAt(text, phrase, i) {
        LetterSaid(text, phrase, i, k);
      }
    }
  }

  lemma RefundTextsLackG()
    ensures OnlyAt(REFUND_COMPLETED, 'g', -1) && OnlyAt(REFUND_NONE, 'g', -1)
  {
    NoneLacksG();
    assert OnlyAt("The refund completed ", 'g', -1) && OnlyAt("successfully.", 'g', -1);
  }

  lemma NoneLacksG()
    ensures OnlyAt(REFUND_NONE, 'g', -1)
  {
    assert OnlyAt("No completed refund ", 'g', -1);
    assert OnlyAt("is supported by the ", 'g', -1);
    assert OnlyAt("available evidence.", 'g', -1);
  }

  lemma TicketTextsLackG()
    ensures OnlyAt(TICKET_CREATED, 'g', -1) && OnlyAt(TICKET_NONE, 'g', -1)
  {
    NoTicketLacksG();
    assert OnlyAt(" A support ticket was ", 'g', -1);
    assert OnlyAt("created and ", 'g', -1) && OnlyAt("remains open.", 'g', -1);
  }

  lemma NoTicketLacksG()
    ensures OnlyAt(TICKET_NONE, 'g', -1)
  {
    assert OnlyAt(" No support-ticket ", 'g', -1);
    assert OnlyAt("creation is supported by ", 'g', -1);
    assert OnlyAt("the available evidence.", 'g', -1);
  }

  lemma CompletedIsSaid(ticket: string)
    ensures Says(REFUND_COMPLETED + ticket, "refund completed")
  {
    var head := "The refund completed ";
    assert head[4..20] == "refund completed";
    assert (REFUND_COMPLETED + ticket)[..21] == head;
    assert (REFUND_COMPLETED + ticket)[4..20] == head[4..20];
    SaidAt(REFUND_COMPLETED + ticket, "refund completed", 4);
  }

  lemma PendingIsSaid(ticket: string)
    ensures Says(REFUND_PENDING + ticket, "pending human approval")
  {
    var head, part := "The refund request is ", "pending human approval ";
    assert |head| == 22 && part[..22] == "pending human approval";
    assert (REFUND_PENDING + ticket)[22..45] == part;
    assert (REFUND_PENDING + ticket)[22..44] == part[..22];
    SaidAt(REFUND_PENDING + ticket, "pending human approval", 22);
  }

  lemma TicketIsSaid(refund: string)
    ensures Says(refund + TICKET_CREATED, "ticket was created")
  {
    var head, part, n := " A support ticket was ", "created and ", |refund|;
    assert |head| == 22 && head[11..] == "ticket was " && part[..7] == "created";
    var text := refund + TICKET_CREATED;
    assert text[n..] == TICKET_CREATED && TICKET_CREATED[..22] == head && TICKET_CREATED[22..34] == part;
    assert TICKET_CREATED[11..29] == head[11..] + part[..7];
    assert text[n + 11..n + 29] == TICKET_CREATED[11..29];
    assert "ticket was " + "created" == "ticket was created";
    SaidAt(text, "ticket was created", n + 11);
  }

  /** The built text speaks of a completed refund exactly when the latest verdict is approval, of
      pending human approval exactly when that is the verdict, and of a ticket exactly when the
      evidence shows an open one. */
  lemma BuiltTextIsExact(evidence: seq<ToolEvidence>)
    ensures var text := BuildFinalResponse(evidence);
            && (Says(text, "refund completed") <==> Decided(evidence, "approved"))
            && (Says(text, "pending human approval") <==> Decided(evidence, "pending_human_approval"))
            && (Says(text, "ticket was created") <==> TicketIsOpen(evidence))
  {
    hide Says, Decided, TicketIsOpen, OnlyAt, HasTicket, RefundStatus, ClaimsRefund, ClaimsTicket;
    var text, status := BuildFinalResponse(evidence), RefundStatus(evidence);
    var refund := if status.None? then REFUND_NONE
                  else if status.value == "approved" then REFUND_COMPLETED else REFUND_PENDING;
    var ticket := if HasTicket(evidence) then TICKET_CREATED else TICKET_NONE;
    assert text == refund + ticket;
    DecidedIsStatus(evidence, "approved");
    DecidedIsStatus(evidence, "pending_human_approval");
    TicketIsOnRecord(evidence);
    BuiltResponseIsSupported(evidence);
    ClaimsAreChecked(text, evidence);
    SaidIsClaimed(text);
    CompletedIsSaid(ticket);
    PendingIsSaid(ticket);
    TicketIsSaid(refund);
    assert "approved" != "pending_human_approval" by { assert |"approved"| != |"pending_human_approval"|; }
    if status != Some("pending_human_approval") {
      RefundTextsLackG();
      TicketTextsLackG();
      LetterAhead(refund, ticket, 'g', -1);
      UnsaidWithout(text, "pending human approval", 6);
    }
  }

  lemma SaidIsClaimed(text: string)
    ensures Says(text, "refund completed") ==> ClaimsRefund(text)
    ensures Says(text, "ticket was created") ==> ClaimsTicket(text)
  {
    hide Says;
  }
}
