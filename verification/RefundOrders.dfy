/** Which interleavings of refund requests look like serving them one after the other. */
module RefundOrders {
  import opened Options
  import opened Refunds
  import opened RefundRaces

  // ---------------------------------------------------------------------
  // One after the other

  /** The rows after serving these requests one after the other. */
  function RowsAfter(s: System, order: seq<nat>): seq<Refund> {
    if order == [] then s.rows
    else
      var before, last := RowsAfter(s, order[..|order| - 1]), order[|order| - 1];
      if last >= |s.processes| then before
      else Served(s.orders, before, s.processes[last].request, s.processes[last].key, s.processes[last].code)
  }

  /** What request `i` gets when it is served on these rows. */
  function Alone(s: System, rows: seq<Refund>, i: nat): Outcome
    requires i < |s.processes|
  {
    Serve(s.orders, rows, s.processes[i].request, s.processes[i].key, s.processes[i].code)
  }

  /** The same refund, or the same error status. */
  predicate Agree(a: Outcome, b: Outcome) {
    if a.Returned? && b.Returned? then a == b
    else a.Failed? && b.Failed? && a.status == b.status
  }

  ghost predicate Permutation(order: seq<nat>, n: nat) {
    && (forall k, l | 0 <= k < l < |order| :: order[k] != order[l])
    && (forall i: nat :: i in order <==> i < n)
  }

  /** The `k`-th answer is the one its request gets after those before it. */
  ghost predicate AnswerFits(start: System, s: System, order: seq<nat>, k: nat) {
    && k < |order| && order[k] < |start.processes| == |s.processes| && s.processes[order[k]].phase.Done?
    && Agree(s.processes[order[k]].phase.outcome, Alone(start, RowsAfter(start, order[..k]), order[k]))
  }

  /** Serving the requests of `start` in this order gives the rows and answers of `end`. */
  ghost predicate Explains(start: System, end: System, order: seq<nat>) {
    && Permutation(order, |start.processes|) && |end.processes| == |start.processes|
    && end.rows == RowsAfter(start, order)
    && forall k: nat | k < |order| :: AnswerFits(start, end, order, k)
  }

  /** The request was told that its order has been refunded, by the refund made under its own
      key for the same request. */
  ghost predicate SelfConflicted(s: System, i: nat) {
    && i < |s.processes| && s.processes[i].phase == Done(ALREADY_REFUNDED)
    && ByKey(s.rows, s.processes[i].key).Some?
    && ByKey(s.rows, s.processes[i].key).value.fingerprint == Fingerprint(s.processes[i].request)
  }

  // ---------------------------------------------------------------------
  // Where a request takes effect

  predicate ForItself(o: Outcome) {
    o.Failed? && o.status != 409
  }

  /** In the end the request is turned down for itself, not for what the table holds. */
  predicate TurnedDown(end: System, i: nat) {
    i < |end.processes| && end.processes[i].phase.Done? && ForItself(end.processes[i].phase.outcome)
  }

  /** A request takes effect with its answer, or, when it is to be turned down for itself, with its
      first lookup. */
  predicate TakesEffect(end: System, before: System, after: System, i: nat) {
    && i < |before.processes| && |after.processes| == |before.processes|
    && if TurnedDown(end, i) then before.processes[i].phase == Begin
       else !before.processes[i].phase.Done? && after.processes[i].phase.Done?
  }

  /** The requests in the order in which they take effect; `end` is what the run comes to. */
  function EffectOrder(snapshot: bool, start: System, end: System, schedule: seq<nat>): seq<nat> {
    if schedule == [] then []
    else
      var earlier, i := schedule[..|schedule| - 1], schedule[|schedule| - 1];
      var before := Run(snapshot, start, earlier);
      EffectOrder(snapshot, start, end, earlier)
      + if TakesEffect(end, before, Step(snapshot, before, i), i) then [i] else []
  }

  lemma EffectOrderSnoc(snapshot: bool, start: System, end: System, earlier: seq<nat>, i: nat)
    ensures var before, order := Run(snapshot, start, earlier), EffectOrder(snapshot, start, end, earlier);
            EffectOrder(snapshot, start, end, earlier + [i]) ==
            if TakesEffect(end, before, Step(snapshot, before, i), i) then order + [i] else order
  {
    hide TakesEffect, Run, Step;
    assert (earlier + [i])[..|earlier|] == earlier;
  }

  /** A request answered before another one began comes first. */
  ghost predicate InTime(snapshot: bool, start: System, schedule: seq<nat>, order: seq<nat>) {
    forall n: nat, k: nat, l: nat | n <= |schedule| && k < |order| && l < |order| ::
      && Answered(Run(snapshot, start, schedule[..n]), order[k])
      && Unbegun(Run(snapshot, start, schedule[..n]), order[l]) ==>
        k < l
  }

  /** A request answered before another one was comes first. */
  ghost predicate ByAnswer(snapshot: bool, start: System, schedule: seq<nat>, order: seq<nat>) {
    forall n: nat, k: nat, l: nat | n <= |schedule| && k < |order| && l < |order| ::
      && Answered(Run(snapshot, start, schedule[..n]), order[k])
      && !Answered(Run(snapshot, start, schedule[..n]), order[l]) ==>
        k < l
  }

  predicate Answered(s: System, i: nat) {
    i < |s.processes| && s.processes[i].phase.Done?
  }

  predicate Unbegun(s: System, i: nat) {
    i < |s.processes| && s.processes[i].phase == Begin
  }

  /** Whoever is turned down for itself after finding its key free would have been turned down so
      at once. */
  lemma {:induction false} Fate(snapshot: bool, s: System, schedule: seq<nat>, i: nat)
    requires Grounded(s) && i < |s.processes|
    requires s.processes[i].phase != Begin && !s.processes[i].phase.Done?
    ensures var end := Run(snapshot, s, schedule);
            && |end.processes| == |s.processes| && end.processes[i].phase != Begin
            && (s.processes[i].phase != KeyAbsent ==> end.processes[i].phase != KeyAbsent)
            && end.processes[i].request == s.processes[i].request && end.orders == s.orders
            && (TurnedDown(end, i) ==>
                  && s.processes[i].phase == KeyAbsent
                  && Objection(s.orders, s.rows, s.processes[i].request) == Some(end.processes[i].phase.outcome))
  {
    hide Step, Grounded, Objection, ForItself;
    if schedule != [] {
      var before := Run(snapshot, s, schedule[..|schedule| - 1]);
      Fate(snapshot, s, schedule[..|schedule| - 1], i);
      GroundedAfterRun(snapshot, s, schedule[..|schedule| - 1]);
      FateStep(snapshot, s, before, schedule[|schedule| - 1], i);
    }
  }

  lemma FateStep(snapshot: bool, s: System, before: System, j: nat, i: nat)
    requires i < |before.processes| == |s.processes| && s.rows <= before.rows && before.orders == s.orders
    requires before.processes[i].request == s.processes[i].request && before.processes[i].phase != Begin
    requires s.processes[i].phase != KeyAbsent ==> before.processes[i].phase != KeyAbsent
    requires TurnedDown(before, i) ==>
               && s.processes[i].phase == KeyAbsent
               && Objection(s.orders, s.rows, s.processes[i].request) == Some(before.processes[i].phase.outcome)
    ensures var end := Step(snapshot, before, j);
            && |end.processes| == |s.processes| && end.processes[i].phase != Begin
            && (s.processes[i].phase != KeyAbsent ==> end.processes[i].phase != KeyAbsent)
            && end.processes[i].request == s.processes[i].request && end.orders == s.orders
            && (TurnedDown(end, i) ==>
                  && s.processes[i].phase == KeyAbsent
                  && Objection(s.orders, s.rows, s.processes[i].request) == Some(end.processes[i].phase.outcome))
  {
    hide ByKey, RefundFor, Objection, Clashes, Fingerprint;
    var p := before.processes[i];
    if i == j && p.phase == KeyAbsent && Objection(before.orders, before.rows, p.request).Some? {
      var e := Objection(before.orders, before.rows, p.request).value;
      if e != ALREADY_REFUNDED {
        SameObjection(s.orders, s.rows, before.rows, p.request, e);
      }
    }
  }

  /** An objection to the request itself was the same before. */
  lemma SameObjection(orders: Orders, rows: seq<Refund>, more: seq<Refund>, r: RefundRequest, e: Outcome)
    requires rows <= more && e != ALREADY_REFUNDED && Objection(orders, more, r) == Some(e)
    ensures Objection(orders, rows, r) == Some(e)
  {
    hide Refunded, Eligible;
    if Refunded(rows, r.orderCode) {
      RefundedStable(rows, more, r.orderCode);
    }
  }

  // ---------------------------------------------------------------------
  // The invariant

  /** Those listed are those that have taken effect. */
  ghost predicate Listed(end: System, s: System, order: seq<nat>) {
    && (forall k, l | 0 <= k < l < |order| :: order[k] != order[l])
    && (forall i: nat :: i in order <==>
          i < |s.processes| && (s.processes[i].phase.Done? || (TurnedDown(end, i) && s.processes[i].phase != Begin)))
  }

  /** Serving the requests listed one after the other explains the rows, and each answer they come
      to but a self-conflict. */
  ghost predicate Explained(start: System, end: System, s: System, order: seq<nat>) {
    && Listed(end, s, order)
    && s.rows == RowsAfter(start, order)
    && forall k: nat | k < |order| :: SelfConflicted(end, order[k]) || AnswerFits(start, end, order, k)
  }

  lemma SelfConflictStays(s: System, t: System, i: nat)
    requires SelfConflicted(s, i) && s.rows <= t.rows
    requires |t.processes| == |s.processes| && t.processes[i] == s.processes[i]
    ensures SelfConflicted(t, i)
  {
    hide Fingerprint;
    ByKeyStable(s.rows, t.rows, s.processes[i].key);
  }

  lemma RowsAfterSnoc(s: System, order: seq<nat>, i: nat)
    requires i < |s.processes|
    ensures RowsAfter(s, order + [i]) ==
            Served(s.orders, RowsAfter(s, order), s.processes[i].request, s.processes[i].key, s.processes[i].code)
  {
    assert (order + [i])[..|order|] == order;
  }

  lemma NoRequests(s: System)
    ensures RowsAfter(s, []) == s.rows
  {
  }

  lemma Alike(start: System, s: System, rows: seq<Refund>, i: nat)
    requires SameRequests(start, s) && i < |s.processes|
    ensures Alone(start, rows, i) == Alone(s, rows, i)
    ensures Served(start.orders, rows, start.processes[i].request, start.processes[i].key, start.processes[i].code)
            == Served(s.orders, rows, s.processes[i].request, s.processes[i].key, s.processes[i].code)
  {
    hide Serve, Served;
  }

  /** Nothing takes effect. */
  lemma StaysExplained(start: System, end: System, s: System, t: System, order: seq<nat>)
    requires Explained(start, end, s, order) && t.rows == s.rows && Listed(end, t, order)
    ensures Explained(start, end, t, order)
  {
  }

  /** Request `i` takes effect: its answer is what it would get alone, and so are the rows. */
  lemma EffectExplained(start: System, end: System, s: System, t: System, order: seq<nat>, i: nat)
    requires SameRequests(start, s) && |end.processes| == |s.processes| && Explained(start, end, s, order)
    requires i < |s.processes| && Listed(end, t, order + [i])
    requires t.rows == Served(s.orders, s.rows, s.processes[i].request, s.processes[i].key, s.processes[i].code)
    requires || SelfConflicted(end, i)
             || (end.processes[i].phase.Done? && Agree(end.processes[i].phase.outcome, Alone(s, s.rows, i)))
    ensures Explained(start, end, t, order + [i])
  {
    hide Listed, Agree, Serve, Served, RowsAfter, SelfConflicted;
    RowsAfterSnoc(start, order, i);
    Alike(start, s, s.rows, i);
    forall k: nat | k < |order + [i]|
      ensures SelfConflicted(end, (order + [i])[k]) || AnswerFits(start, end, order + [i], k)
    {
      if k < |order| {
        assert (order + [i])[..k] == order[..k];
        assert SelfConflicted(end, order[k]) || AnswerFits(start, end, order, k);
      } else {
        assert (order + [i])[..k] == order;
      }
    }
  }

  // ---------------------------------------------------------------------
  // The steps

  /** What `end` owes to the step of request `i` from `s` to `t`. */
  ghost predicate Leads(s: System, t: System, i: nat, end: System) {
    && i < |s.processes| == |t.processes| == |end.processes| && t.rows <= end.rows
    && (forall k | 0 <= k < |t.processes| && k != i :: t.processes[k] == s.processes[k])
    && (t.processes[i].phase.Done? ==> end.processes[i] == t.processes[i])
    && (TurnedDown(end, i) && s.processes[i].phase == Begin && ByKey(s.rows, s.processes[i].key).None? ==>
          Objection(s.orders, s.rows, s.processes[i].request) == Some(end.processes[i].phase.outcome))
  }

  /** The list after the step. */
  lemma StepListed(end: System, s: System, t: System, order: seq<nat>, i: nat)
    requires Listed(end, s, order) && i < |s.processes| == |t.processes|
    requires forall k | 0 <= k < |t.processes| && k != i :: t.processes[k] == s.processes[k]
    requires t.processes[i].phase != Begin && (s.processes[i].phase.Done? ==> t.processes[i].phase.Done?)
    ensures Listed(end, t, if TakesEffect(end, s, t, i) then order + [i] else order)
  {
    hide TurnedDown;
    var next := if TakesEffect(end, s, t, i) then order + [i] else order;
    forall j: nat
      ensures j in next <==>
        j < |t.processes| && (t.processes[j].phase.Done? || (TurnedDown(end, j) && t.processes[j].phase != Begin))
    {
      if j != i && j < |t.processes| {
        assert t.processes[j] == s.processes[j];
      }
    }
  }

  /** What the request would get alone on these rows. */
  lemma ServedAlone(s: System, i: nat)
    requires i < |s.processes|
    ensures var p, o := s.processes[i], Alone(s, s.rows, i);
            && (ByKey(s.rows, p.key).Some? ==> o == Replayed(ByKey(s.rows, p.key).value, p.request))
            && (ByKey(s.rows, p.key).None? && Objection(s.orders, s.rows, p.request).Some? ==>
                  o == Objection(s.orders, s.rows, p.request).value)
            && (ByKey(s.rows, p.key).None? && Objection(s.orders, s.rows, p.request).None? ==>
                  && o == Returned(RefundFor(s.orders, p.request, p.key, p.code), true)
                  && Served(s.orders, s.rows, p.request, p.key, p.code) == s.rows + [o.refund])
            && (ByKey(s.rows, p.key).Some? || Objection(s.orders, s.rows, p.request).Some? ==>
                  Served(s.orders, s.rows, p.request, p.key, p.code) == s.rows)
  {
    hide Refunded, Eligible, Fingerprint;
    if ByKey(s.rows, s.processes[i].key).None? && Objection(s.orders, s.rows, s.processes[i].request).Some? {
      RefusalMeansRefunded(s.orders, s.rows, s.processes[i].request,
                           Objection(s.orders, s.rows, s.processes[i].request).value);
    }
  }

  lemma FirstLookup(snapshot: bool, start: System, end: System, s: System, order: seq<nat>, i: nat)
    requires Kept(start, s) && Explained(start, end, s, order) && i < |s.processes| && s.processes[i].phase == Begin
    requires Leads(s, Step(snapshot, s, i), i, end)
    ensures var t := Step(snapshot, s, i);
            Explained(start, end, t, if TakesEffect(end, s, t, i) then order + [i] else order)
  {
    hide StoreValid, Stands, Explained, Listed, Objection, ByKey, RefundFor, Fingerprint, Served, Alone, SelfConflicted;
    var t := Step(snapshot, s, i);
    ServedAlone(s, i);
    ListedOf(start, end, s, order);
    StepListed(end, s, t, order, i);
    if TakesEffect(end, s, t, i) {
      EffectExplained(start, end, s, t, order, i);
    } else {
      StaysExplained(start, end, s, t, order);
    }
  }

  lemma ListedOf(start: System, end: System, s: System, order: seq<nat>)
    requires Explained(start, end, s, order)
    ensures Listed(end, s, order)
  {
  }

  lemma SecondLookup(snapshot: bool, start: System, end: System, s: System, order: seq<nat>, i: nat)
    requires Kept(start, s) && Explained(start, end, s, order) && i < |s.processes| && s.processes[i].phase == KeyAbsent
    requires Leads(s, Step(snapshot, s, i), i, end)
    ensures var t := Step(snapshot, s, i);
            Explained(start, end, t, if TakesEffect(end, s, t, i) then order + [i] else order)
  {
    hide StoreValid, Stands, Explained, Listed, Objection, ByKey, RefundFor, Fingerprint, Served, Alone, SelfConflicted;
    var t, p := Step(snapshot, s, i), s.processes[i];
    ServedAlone(s, i);
    ListedOf(start, end, s, order);
    StepListed(end, s, t, order, i);
    if TakesEffect(end, s, t, i) {
      RefusedForItself(s.orders, s.rows, p.request);
      RefusedForRefund(s, t, end, i);
      EffectExplained(start, end, s, t, order, i);
    } else {
      StaysExplained(start, end, s, t, order);
    }
  }

  lemma RefusedForItself(orders: Orders, rows: seq<Refund>, r: RefundRequest)
    ensures var e := Objection(orders, rows, r);
            e.Some? ==> e.value.Failed? && (ForItself(e.value) <==> e.value != ALREADY_REFUNDED)
  {
    hide Refunded, Eligible;
  }

  /** Told that its order is refunded, with a row under its key: the row is of another request, and
      alone it gets the same status, or it is in conflict with itself. */
  lemma RefusedForRefund(s: System, t: System, end: System, i: nat)
    requires Leads(s, t, i, end) && t.rows == s.rows
    requires t.processes[i] == s.processes[i].(phase := Done(ALREADY_REFUNDED))
    ensures ByKey(s.rows, s.processes[i].key).Some? ==>
              || SelfConflicted(end, i)
              || Agree(ALREADY_REFUNDED, Replayed(ByKey(s.rows, s.processes[i].key).value, s.processes[i].request))
  {
    hide Fingerprint;
    if ByKey(s.rows, s.processes[i].key).Some? {
      ByKeyStable(t.rows, end.rows, s.processes[i].key);
    }
  }

  lemma CommitStep(snapshot: bool, start: System, end: System, s: System, order: seq<nat>, i: nat)
    requires Kept(start, s) && Explained(start, end, s, order) && i < |s.processes| && s.processes[i].phase.Committing?
    requires Leads(s, Step(snapshot, s, i), i, end)
    ensures var t := Step(snapshot, s, i);
            Explained(start, end, t, if TakesEffect(end, s, t, i) then order + [i] else order)
  {
    hide StoreValid, Explained, Listed, ByKey, Refunded, Fingerprint, Served, Alone, SelfConflicted;
    var t, p := Step(snapshot, s, i), s.processes[i];
    assert Stands(s.orders, s.rows, p);
    assert p.phase.refund.key == p.key && p.phase.refund.orderCode == p.request.orderCode;
    ServedAlone(s, i);
    ListedOf(start, end, s, order);
    StepListed(end, s, t, order, i);
    if TakesEffect(end, s, t, i) {
      EffectExplained(start, end, s, t, order, i);
    } else {
      StaysExplained(start, end, s, t, order);
    }
  }

  lemma RecoverStep(snapshot: bool, start: System, end: System, s: System, order: seq<nat>, i: nat)
    requires Kept(start, s) && Explained(start, end, s, order) && i < |s.processes| && s.processes[i].phase.Conflicted?
    requires Leads(s, Step(snapshot, s, i), i, end)
    ensures var t := Step(snapshot, s, i);
            Explained(start, end, t, if TakesEffect(end, s, t, i) then order + [i] else order)
  {
    hide StoreValid, Explained, Listed, ByKey, Refunded, Fingerprint, Eligible, Served, Alone, SelfConflicted;
    var t, p := Step(snapshot, s, i), s.processes[i];
    assert Stands(s.orders, s.rows, p);
    ServedAlone(s, i);
    ListedOf(start, end, s, order);
    StepListed(end, s, t, order, i);
    EffectExplained(start, end, s, t, order, i);
  }

  lemma StepExplained(snapshot: bool, start: System, end: System, s: System, order: seq<nat>, i: nat)
    requires Kept(start, s) && Explained(start, end, s, order)
    requires i < |s.processes| ==> Leads(s, Step(snapshot, s, i), i, end)
    ensures var t := Step(snapshot, s, i);
            Explained(start, end, t, if TakesEffect(end, s, t, i) then order + [i] else order)
  {
    hide StoreValid, Explained, Kept, Leads, Step;
    if i < |s.processes| {
      match s.processes[i].phase
      case Begin => FirstLookup(snapshot, start, end, s, order, i);
      case KeyAbsent => SecondLookup(snapshot, start, end, s, order, i);
      case Committing(_) => CommitStep(snapshot, start, end, s, order, i);
      case Conflicted => RecoverStep(snapshot, start, end, s, order, i);
      case Done(_) =>
        DoneStays(snapshot, s, i);
        assert Step(snapshot, s, i) == s && !TakesEffect(end, s, s, i);
    } else {
      NobodyThere(snapshot, s, i);
    }
  }

  /** The rest of the schedule makes good what a step owes. */
  lemma StepLeads(snapshot: bool, s: System, i: nat, rest: seq<nat>)
    requires Grounded(s) && i < |s.processes|
    ensures Leads(s, Step(snapshot, s, i), i, Run(snapshot, Step(snapshot, s, i), rest))
  {
    hide Step, Grounded, Run, Objection;
    var t := Step(snapshot, s, i);
    GroundedAfterStep(snapshot, s, i);
    StepIsLocal(snapshot, s, i);
    RunIsLater(snapshot, t, rest);
    if s.processes[i].phase == Begin && ByKey(s.rows, s.processes[i].key).None? {
      AfterFirstLookup(snapshot, s, i);
      if !t.processes[i].phase.Done? {
        Fate(snapshot, t, rest, i);
      }
    }
  }

  lemma AfterFirstLookup(snapshot: bool, s: System, i: nat)
    requires i < |s.processes| && s.processes[i].phase == Begin && ByKey(s.rows, s.processes[i].key).None?
    ensures var t := Step(snapshot, s, i);
            && i < |t.processes| && t.rows == s.rows && t.orders == s.orders && t.processes[i].phase != Begin
            && t.processes[i].request == s.processes[i].request
            && (t.processes[i].phase.Done? ==>
                  Objection(s.orders, s.rows, s.processes[i].request) == Some(t.processes[i].phase.outcome))
  {
    hide Objection, RefundFor;
  }

  /** At every moment of every interleaving, those that have taken effect are explained by serving
      them one after the other, self-conflicts aside; the answers are those of any later moment. */
  lemma {:induction false} RunExplained(snapshot: bool, start: System, schedule: seq<nat>, n: nat)
    requires Initial(start) && n <= |schedule|
    ensures var end := Run(snapshot, start, schedule);
            Explained(start, end, Run(snapshot, start, schedule[..n]), EffectOrder(snapshot, start, end, schedule[..n]))
  {
    hide StoreValid, Step, Run, Explained, TakesEffect, Leads, Kept, Grounded, EffectOrder;
    var end := Run(snapshot, start, schedule);
    if n == 0 {
      NothingYet(snapshot, start, end);
      assert schedule[..0] == [];
    } else {
      var before, i := Run(snapshot, start, schedule[..n - 1]), schedule[n - 1];
      RunExplained(snapshot, start, schedule, n - 1);
      RunKeepsTable(snapshot, start, schedule[..n - 1]);
      KeptIsGrounded(start, before);
      assert schedule[..n] == schedule[..n - 1] + [i];
      Unroll(snapshot, start, schedule[..n - 1], i);
      EffectOrderSnoc(snapshot, start, end, schedule[..n - 1], i);
      assert schedule == schedule[..n] + schedule[n..];
      RunConcat(snapshot, start, schedule[..n], schedule[n..]);
      if i < |before.processes| {
        StepLeads(snapshot, before, i, schedule[n..]);
      }
      StepExplained(snapshot, start, end, before, EffectOrder(snapshot, start, end, schedule[..n - 1]), i);
    }
  }

  lemma KeptIsGrounded(start: System, s: System)
    requires Kept(start, s)
    ensures Grounded(s)
  {
  }

  lemma NothingYet(snapshot: bool, start: System, end: System)
    requires Initial(start)
    ensures Explained(start, end, Run(snapshot, start, []), EffectOrder(snapshot, start, end, []))
  {
    hide StoreValid;
    NoRequests(start);
  }

  // ---------------------------------------------------------------------
  // What it means

  lemma {:induction false} EffectsStay(snapshot: bool, start: System, end: System, schedule: seq<nat>, n: nat)
    requires n <= |schedule|
    ensures EffectOrder(snapshot, start, end, schedule[..n]) <= EffectOrder(snapshot, start, end, schedule)
    decreases |schedule|
  {
    hide TakesEffect, Step, Run;
    if n < |schedule| {
      var earlier := schedule[..|schedule| - 1];
      EffectsStay(snapshot, start, end, earlier, n);
      assert earlier[..n] == schedule[..n];
    } else {
      assert schedule[..n] == schedule;
    }
  }

  /** Who has taken effect by then comes before who has not. */
  lemma EffectsAreInTime(snapshot: bool, start: System, schedule: seq<nat>, n: nat, k: nat, l: nat)
    requires Initial(start) && n <= |schedule|
    requires var order := EffectOrder(snapshot, start, Run(snapshot, start, schedule), schedule);
             && k < |order| && l < |order|
             && order[k] in EffectOrder(snapshot, start, Run(snapshot, start, schedule), schedule[..n])
             && order[l] !in EffectOrder(snapshot, start, Run(snapshot, start, schedule), schedule[..n])
    ensures k < l
  {
    hide StoreValid, Run, EffectOrder, RowsAfter, AnswerFits, SelfConflicted;
    var end := Run(snapshot, start, schedule);
    var first, order := EffectOrder(snapshot, start, end, schedule[..n]), EffectOrder(snapshot, start, end, schedule);
    EffectsStay(snapshot, start, end, schedule, n);
    RunExplained(snapshot, start, schedule, |schedule|);
    assert schedule[..|schedule|] == schedule;
    var m :| 0 <= m < |first| && first[m] == order[k];
    assert order[m] == order[k];
  }

  /** The order of effects explains a complete run without self-conflict, and keeps to the time of
      the calls: each takes effect between its first step and its answer. */
  lemma EffectsExplain(snapshot: bool, start: System, schedule: seq<nat>)
    requires Initial(start) && Complete(Run(snapshot, start, schedule))
    requires var end := Run(snapshot, start, schedule);
             forall i | 0 <= i < |end.processes| :: !SelfConflicted(end, i)
    ensures var order := EffectOrder(snapshot, start, Run(snapshot, start, schedule), schedule);
            Explains(start, Run(snapshot, start, schedule), order) && InTime(snapshot, start, schedule, order)
  {
    hide StoreValid, Run, EffectOrder, RowsAfter, SelfConflicted, AnswerFits, TurnedDown, Grounded;
    var end := Run(snapshot, start, schedule);
    var order := EffectOrder(snapshot, start, end, schedule);
    RunKeepsTable(snapshot, start, schedule);
    RunExplained(snapshot, start, schedule, |schedule|);
    assert schedule[..|schedule|] == schedule;
    forall k: nat | k < |order| ensures AnswerFits(start, end, order, k) {
      assert order[k] in order;
    }
    forall n: nat, k: nat, l: nat | n <= |schedule| && k < |order| && l < |order|
      && Answered(Run(snapshot, start, schedule[..n]), order[k])
      && Unbegun(Run(snapshot, start, schedule[..n]), order[l])
      ensures k < l
    {
      RunExplained(snapshot, start, schedule, n);
      EffectsAreInTime(snapshot, start, schedule, n, k, l);
    }
  }

  lemma {:induction false} RowsGrow(start: System, order: seq<nat>, n: nat)
    requires StoreValid(start.orders, start.rows) && n <= |order|
    ensures StoreValid(start.orders, RowsAfter(start, order[..n]))
    ensures RowsAfter(start, order[..n]) <= RowsAfter(start, order)
    decreases |order|, n
  {
    hide StoreValid, Served;
    if n == |order| {
      assert order[..n] == order;
      if order != [] {
        var last := |order| - 1;
        RowsGrow(start, order[..last], last);
        assert order[..last][..last] == order[..last];
        ServeNext(start, order);
      }
    } else {
      var last := |order| - 1;
      RowsGrow(start, order[..last], n);
      assert order[..last][..n] == order[..n];
      RowsGrow(start, order[..last], last);
      assert order[..last][..last] == order[..last];
      ServeNext(start, order);
    }
  }

  lemma ServeNext(start: System, order: seq<nat>)
    requires order != [] && StoreValid(start.orders, RowsAfter(start, order[..|order| - 1]))
    ensures StoreValid(start.orders, RowsAfter(start, order))
    ensures RowsAfter(start, order[..|order| - 1]) <= RowsAfter(start, order)
  {
    hide StoreValid, Served;
    var last := order[|order| - 1];
    if last < |start.processes| {
      ServedKeepsStore(start.orders, RowsAfter(start, order[..|order| - 1]), start.processes[last].request,
                       start.processes[last].key, start.processes[last].code);
    }
  }

  /** On any rows the table ever held, a self-conflicted request would have been given a refund. */
  lemma WouldHaveBeenServed(orders: Orders, rows: seq<Refund>, all: seq<Refund>, r: RefundRequest, key: string,
                            code: string)
    requires rows <= all && StoreValid(orders, all)
    requires ByKey(all, key).Some? && ByKey(all, key).value.fingerprint == Fingerprint(r)
    ensures Serve(orders, rows, r, key, code).Returned?
  {
    hide Fingerprint;
    var x := ByKey(all, key).value;
    assert Justified(orders, x);
    FingerprintFaithful(RequestOf(x), r);
    OnlyRow(orders, all, x);
    if ByKey(rows, key).Some? {
      ByKeyStable(rows, all, key);
    } else if Refunded(rows, r.orderCode) {
      EarlierRefund(orders, rows, all, x);
    }
  }

  lemma EarlierRefund(orders: Orders, rows: seq<Refund>, all: seq<Refund>, x: Refund)
    requires rows <= all && StoreValid(orders, all) && x in all && Refunded(rows, x.orderCode)
    ensures ByKey(rows, x.key).Some?
  {
    hide Justified;
    var y :| y in rows && y.orderCode == x.orderCode;
    assert y in all;
    OnlyRow(orders, all, x);
    assert y in rows && y.key == x.key;
  }

  /** A self-conflict has no explanation: in every order the request would have been given the
      refund. */
  lemma SelfConflictIsNotSerial(start: System, s: System, i: nat, order: seq<nat>)
    requires Kept(start, s) && StoreValid(start.orders, start.rows) && SelfConflicted(s, i)
    ensures !Explains(start, s, order)
  {
    hide StoreValid, Fingerprint, RowsAfter, Serve, ByKey;
    if Explains(start, s, order) {
      assert i in order;
      var k :| 0 <= k < |order| && order[k] == i;
      assert AnswerFits(start, s, order, k);
      RowsGrow(start, order, k);
      var p := s.processes[i];
      WouldHaveBeenServed(s.orders, RowsAfter(start, order[..k]), s.rows, p.request, p.key, p.code);
      assert false;
    }
  }

  /** When both lookups may see different rows: the interleaving gives the refunds and status
      codes of some sequential order exactly when no request was turned away because of the
      refund made under its own key; and then of one that keeps to the time of the calls. */
  lemma RacesAreSerialUnlessSelfConflicted(start: System, schedule: seq<nat>)
    requires Initial(start) && Complete(Run(false, start, schedule))
    ensures var end := Run(false, start, schedule);
            (exists order :: Explains(start, end, order)) <==> (forall i: nat :: !SelfConflicted(end, i))
    ensures var end := Run(false, start, schedule);
            (exists order :: Explains(start, end, order)) ==>
              exists order :: Explains(start, end, order) && InTime(false, start, schedule, order)
  {
    hide Run, StoreValid, Kept, Explains, SelfConflicted, InTime, EffectOrder;
    RunKeepsTable(false, start, schedule);
    var end := Run(false, start, schedule);
    if forall i: nat :: !SelfConflicted(end, i) {
      EffectsExplain(false, start, schedule);
    } else {
      var i: nat :| SelfConflicted(end, i);
      forall order ensures !Explains(start, end, order) {
        SelfConflictIsNotSerial(start, end, i, order);
      }
    }
  }

  // ---------------------------------------------------------------------
  // Snapshot reads

  /** Nobody waits between the two lookups, and nobody is in conflict with itself. */
  ghost predicate Clean(s: System) {
    forall i | 0 <= i < |s.processes| :: s.processes[i].phase != KeyAbsent && !SelfConflicted(s, i)
  }

  lemma {:induction false} ByKeySnoc(rows: seq<Refund>, x: Refund, key: string)
    ensures ByKey(rows + [x], key) ==
            if ByKey(rows, key).Some? then ByKey(rows, key) else if x.key == key then Some(x) else None
  {
    if rows != [] {
      assert (rows + [x])[1..] == rows[1..] + [x];
      ByKeySnoc(rows[1..], x, key);
    } else {
      assert rows + [x] == [x];
    }
  }

  /** A new row is never the one a refused request was refused for. */
  lemma InsertIsNotSelf(start: System, s: System, x: Refund, i: nat)
    requires Kept(start, s) && i < |s.processes| && !SelfConflicted(s, i) && Justified(s.orders, x)
    requires !Clashes(s.rows, x)
    ensures s.processes[i].phase == Done(ALREADY_REFUNDED) ==>
              var found := ByKey(s.rows + [x], s.processes[i].key);
              found.Some? ==> found.value.fingerprint != Fingerprint(s.processes[i].request)
  {
    hide StoreValid, Fingerprint, ByKey, Refunded, Eligible;
    ByKeySnoc(s.rows, x, s.processes[i].key);
    assert Stands(s.orders, s.rows, s.processes[i]);
    FingerprintFaithful(RequestOf(x), s.processes[i].request);
  }

  lemma CleanAfterStep(start: System, s: System, i: nat)
    requires Kept(start, s) && Clean(s)
    ensures Clean(Step(true, s, i))
  {
    hide StoreValid, Fingerprint, ByKey, Refunded, Eligible, RefundFor, Objection;
    if i < |s.processes| {
      var p := s.processes[i];
      assert Stands(s.orders, s.rows, p) && p.phase != KeyAbsent && !SelfConflicted(s, i);
      DetailsDiffer();
      if p.phase.Committing? && !Clashes(s.rows, p.phase.refund) {
        RefundForIsJustified(s.orders, p.request, p.key, p.code);
        forall k | 0 <= k < |s.processes| ensures !SelfConflicted(Step(true, s, i), k) {
          InsertIsNotSelf(start, s, p.phase.refund, k);
        }
      } else {
        assert Step(true, s, i).rows == s.rows;
        forall k | 0 <= k < |s.processes|
          ensures Step(true, s, i).processes[k].phase != KeyAbsent && !SelfConflicted(Step(true, s, i), k)
        {
          assert s.processes[k].phase != KeyAbsent && !SelfConflicted(s, k);
        }
      }
    }
  }

  lemma {:induction false} SnapshotRunsAreClean(start: System, schedule: seq<nat>)
    requires Initial(start)
    ensures Clean(Run(true, start, schedule))
  {
    hide StoreValid, Step, Fingerprint;
    if schedule != [] {
      var before := schedule[..|schedule| - 1];
      SnapshotRunsAreClean(start, before);
      RunKeepsTable(true, start, before);
      CleanAfterStep(start, Run(true, start, before), schedule[|schedule| - 1]);
    }
  }

  /** With both lookups of a request on one snapshot, every interleaving is explained by the
      order in which the requests were answered. */
  lemma SnapshotRacesAreSerial(start: System, schedule: seq<nat>)
    requires Initial(start) && Complete(Run(true, start, schedule))
    ensures exists order :: Explains(start, Run(true, start, schedule), order) && ByAnswer(true, start, schedule, order)
  {
    hide Run, Initial, Complete, Explains, EffectOrder, SelfConflicted, InTime;
    var order := EffectOrder(true, start, Run(true, start, schedule), schedule);
    SnapshotRunsAreClean(start, schedule);
    EffectsExplain(true, start, schedule);
    forall n: nat, k: nat, l: nat | n <= |schedule| && k < |order| && l < |order|
      && Answered(Run(true, start, schedule[..n]), order[k]) && !Answered(Run(true, start, schedule[..n]), order[l])
      ensures k < l
    {
      AnswersAreEffects(start, schedule, n, order[k]);
      AnswersAreEffects(start, schedule, n, order[l]);
      EffectsAreInTime(true, start, schedule, n, k, l);
    }
  }

  /** With snapshots, requests take effect with their answers. */
  lemma AnswersAreEffects(start: System, schedule: seq<nat>, n: nat, i: nat)
    requires Initial(start) && n <= |schedule|
    ensures i in EffectOrder(true, start, Run(true, start, schedule), schedule[..n]) <==>
            Answered(Run(true, start, schedule[..n]), i)
  {
    hide Run, StoreValid, EffectOrder, RowsAfter, AnswerFits, SelfConflicted, Grounded;
    var s, end := Run(true, start, schedule[..n]), Run(true, start, schedule);
    RunExplained(true, start, schedule, n);
    SnapshotRunsAreClean(start, schedule[..n]);
    RunKeepsTable(true, start, schedule[..n]);
    if i < |s.processes| && s.processes[i].phase != Begin && !s.processes[i].phase.Done? {
      Fate(true, s, schedule[n..], i);
      assert schedule == schedule[..n] + schedule[n..];
      RunConcat(true, start, schedule[..n], schedule[n..]);
    }
  }
}
