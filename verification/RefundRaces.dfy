/** Refund requests running side by side: each reads, validates and commits in steps, and any
    other request may act in between. */
module RefundRaces {
  import opened Options
  import opened Refunds

  /** Where a request stands: before its lookup by key, after it found nothing, about to
      commit, rolled back by a unique column, or answered. */
  datatype Phase = Begin | KeyAbsent | Committing(refund: Refund) | Conflicted | Done(outcome: Outcome)

  datatype Process = Process(request: RefundRequest, key: string, code: string, phase: Phase)

  /** The table of refunds and the requests. */
  datatype System = System(orders: Orders, rows: seq<Refund>, processes: seq<Process>)

  function At(s: System, i: nat, phase: Phase): System
    requires i < |s.processes|
  {
    s.(processes := s.processes[i := s.processes[i].(phase := phase)])
  }

  function Answer(s: System, i: nat, outcome: Outcome): System
    requires i < |s.processes|
  {
    At(s, i, Done(outcome))
  }

  /** The order's lookup and the checks on it. */
  function Validate(s: System, i: nat): System
    requires i < |s.processes|
  {
    var p := s.processes[i];
    match Objection(s.orders, s.rows, p.request)
    case Some(error) => Answer(s, i, error)
    case None => At(s, i, Committing(RefundFor(s.orders, p.request, p.key, p.code)))
  }

  /** A unique column already holds the row's key or order. */
  predicate Clashes(rows: seq<Refund>, x: Refund) {
    ByKey(rows, x.key).Some? || Refunded(rows, x.orderCode)
  }

  /** The lookup after a rollback. */
  function Recovered(rows: seq<Refund>, p: Process): Outcome {
    var found := ByKey(rows, p.key);
    if found.Some? && found.value.fingerprint == Fingerprint(p.request) then Returned(found.value, false) else CONFLICT
  }

  /** One step of request `i`. With `snapshot`, both lookups see the same rows. */
  function Step(snapshot: bool, s: System, i: nat): System {
    if i >= |s.processes| then s
    else
      var p := s.processes[i];
      match p.phase
      case Begin =>
        (match ByKey(s.rows, p.key)
         case Some(found) => Answer(s, i, Replayed(found, p.request))
         case None => if snapshot then Validate(s, i) else At(s, i, KeyAbsent))
      case KeyAbsent => Validate(s, i)
      case Committing(x) =>
        if Clashes(s.rows, x) then At(s, i, Conflicted)
        else Answer(s.(rows := s.rows + [x]), i, Returned(x, true))
      case Conflicted => Answer(s, i, Recovered(s.rows, p))
      case Done(_) => s
  }

  function Run(snapshot: bool, s: System, schedule: seq<nat>): System {
    if schedule == [] then s
    else Step(snapshot, Run(snapshot, s, schedule[..|schedule| - 1]), schedule[|schedule| - 1])
  }

  lemma Unroll(snapshot: bool, s: System, schedule: seq<nat>, i: nat)
    ensures Run(snapshot, s, schedule + [i]) == Step(snapshot, Run(snapshot, s, schedule), i)
  {
    hide Step;
    assert (schedule + [i])[..|schedule|] == schedule;
  }

  /** Nothing has begun. */
  ghost predicate Initial(s: System) {
    && StoreValid(s.orders, s.rows)
    && forall i | 0 <= i < |s.processes| :: s.processes[i].phase == Begin
  }

  ghost predicate Complete(s: System) {
    forall i | 0 <= i < |s.processes| :: s.processes[i].phase.Done?
  }

  /** The request `p` and the table, and nobody else. */
  function Solo(orders: Orders, rows: seq<Refund>, p: Process): System {
    System(orders, rows, [p])
  }

  /** A step reads and writes only its own request and the table. */
  lemma StepIsLocal(snapshot: bool, s: System, i: nat)
    requires i < |s.processes|
    ensures var t, u := Step(snapshot, s, i), Step(snapshot, Solo(s.orders, s.rows, s.processes[i]), 0);
            && t.orders == s.orders && t.rows == u.rows && |t.processes| == |s.processes| && |u.processes| == 1
            && t.processes[i] == u.processes[0]
            && forall k | 0 <= k < |s.processes| && k != i :: t.processes[k] == s.processes[k]
  {
    hide Objection, RefundFor, Replayed, Recovered, Clashes;
  }

  // ---------------------------------------------------------------------
  // The table, whoever else joins in

  /** The row is in the table, under the request's key and with its fingerprint. */
  ghost predicate Held(rows: seq<Refund>, p: Process, x: Refund) {
    x in rows && x.key == p.key && x.fingerprint == Fingerprint(p.request)
  }

  /** What the phase of a request says about the rows. */
  ghost predicate Stands(orders: Orders, rows: seq<Refund>, p: Process) {
    match p.phase
    case Committing(x) => Passed(orders, p.request) && x == RefundFor(orders, p.request, p.key, p.code)
    case Conflicted => Passed(orders, p.request) && (ByKey(rows, p.key).Some? || Refunded(rows, p.request.orderCode))
    case Done(o) =>
      && (o == ALREADY_REFUNDED ==> Refunded(rows, p.request.orderCode))
      && (o.Returned? ==> Held(rows, p, o.refund) && (o.created ==> o.refund.code == p.code))
    case _ => true
  }

  ghost predicate Grounded(s: System) {
    && StoreValid(s.orders, s.rows)
    && forall i | 0 <= i < |s.processes| :: Stands(s.orders, s.rows, s.processes[i])
  }

  lemma {:induction false} ByKeyStable(rows: seq<Refund>, more: seq<Refund>, key: string)
    requires rows <= more && ByKey(rows, key).Some?
    ensures ByKey(more, key) == ByKey(rows, key)
  {
    if rows[0].key != key {
      ByKeyStable(rows[1..], more[1..], key);
    }
  }

  lemma RefundedStable(rows: seq<Refund>, more: seq<Refund>, orderCode: string)
    requires rows <= more && Refunded(rows, orderCode)
    ensures Refunded(more, orderCode)
  {
    var x :| x in rows && x.orderCode == orderCode;
    RowStays(rows, more, x);
  }

  lemma RowStays(rows: seq<Refund>, more: seq<Refund>, x: Refund)
    requires rows <= more && x in rows
    ensures x in more
  {
    var i :| 0 <= i < |rows| && rows[i] == x;
    assert more[i] == x;
  }

  lemma OthersStand(orders: Orders, rows: seq<Refund>, more: seq<Refund>, p: Process)
    requires Stands(orders, rows, p) && rows <= more
    ensures Stands(orders, more, p)
  {
    hide RefundFor, Eligible, Fingerprint;
    if ByKey(rows, p.key).Some? {
      ByKeyStable(rows, more, p.key);
    }
    if Refunded(rows, p.request.orderCode) {
      RefundedStable(rows, more, p.request.orderCode);
    }
    if p.phase.Done? && p.phase.outcome.Returned? {
      RowStays(rows, more, p.phase.outcome.refund);
    }
  }

  lemma DetailsDiffer()
    ensures DIFFERENT_REQUEST != ALREADY_REFUNDED && CONFLICT != ALREADY_REFUNDED
  {
    assert |DIFFERENT_REQUEST.detail| != |ALREADY_REFUNDED.detail|;
    assert |CONFLICT.detail| != |ALREADY_REFUNDED.detail|;
  }

  lemma RefusalMeansRefunded(orders: Orders, rows: seq<Refund>, r: RefundRequest, e: Outcome)
    requires Objection(orders, rows, r) == Some(e)
    ensures e.Failed?
    ensures e == ALREADY_REFUNDED ==> Refunded(rows, r.orderCode)
  {
    hide Refunded, Eligible;
  }

  lemma ValidatedStands(s: System, i: nat)
    requires i < |s.processes|
    ensures var t := Validate(s, i);
            t.rows == s.rows && t.orders == s.orders && i < |t.processes| && Stands(t.orders, t.rows, t.processes[i])
  {
    hide Refunded, Eligible, ByKey, RefundFor, Objection;
    var p := s.processes[i];
    if Objection(s.orders, s.rows, p.request).Some? {
      RefusalMeansRefunded(s.orders, s.rows, p.request, Objection(s.orders, s.rows, p.request).value);
    }
  }

  lemma CommittedStands(s: System, i: nat)
    requires StoreValid(s.orders, s.rows) && i < |s.processes| && s.processes[i].phase.Committing?
    requires Stands(s.orders, s.rows, s.processes[i])
    ensures var t := Step(false, s, i);
            && StoreValid(t.orders, t.rows) && s.rows <= t.rows && t.orders == s.orders
            && i < |t.processes| && Stands(t.orders, t.rows, t.processes[i])
  {
    hide StoreValid, Refunded, Eligible, ByKey, Fingerprint;
    var p := s.processes[i];
    var x := p.phase.refund;
    assert x.key == p.key && x.orderCode == p.request.orderCode;
    if !Clashes(s.rows, x) {
      RefundForIsJustified(s.orders, p.request, p.key, p.code);
      InsertKeepsStore(s.orders, s.rows, x);
      assert x == (s.rows + [x])[|s.rows|];
    }
  }

  /** The step of a request, and what its own phase then says. */
  lemma SteppedStands(snapshot: bool, s: System, i: nat)
    requires StoreValid(s.orders, s.rows) && i < |s.processes| && Stands(s.orders, s.rows, s.processes[i])
    ensures var t := Step(snapshot, s, i);
            && StoreValid(t.orders, t.rows) && s.rows <= t.rows && t.orders == s.orders
            && i < |t.processes| && Stands(t.orders, t.rows, t.processes[i])
  {
    hide StoreValid, Refunded, Eligible, ByKey, Fingerprint, Validate;
    DetailsDiffer();
    if s.processes[i].phase.Committing? {
      CommittedStands(s, i);
    } else {
      ValidatedStands(s, i);
    }
  }

  /** Whatever steps, the table stays valid, keeps its rows, and backs every phase. */
  lemma GroundedAfterStep(snapshot: bool, s: System, i: nat)
    requires Grounded(s)
    ensures Grounded(Step(snapshot, s, i)) && s.rows <= Step(snapshot, s, i).rows
    ensures Step(snapshot, s, i).orders == s.orders && |Step(snapshot, s, i).processes| == |s.processes|
  {
    hide StoreValid, Stands, Step;
    if i < |s.processes| {
      SteppedStands(snapshot, s, i);
      StepIsLocal(snapshot, s, i);
      var t := Step(snapshot, s, i);
      forall k | 0 <= k < |t.processes| ensures Stands(t.orders, t.rows, t.processes[k]) {
        if k != i {
          OthersStand(s.orders, s.rows, t.rows, s.processes[k]);
        }
      }
    } else {
      assert Step(snapshot, s, i) == s by { NobodyThere(snapshot, s, i); }
    }
  }

  lemma NobodyThere(snapshot: bool, s: System, i: nat)
    requires i >= |s.processes|
    ensures Step(snapshot, s, i) == s
  {
  }

  lemma {:induction false} GroundedAfterRun(snapshot: bool, s: System, schedule: seq<nat>)
    requires Grounded(s)
    ensures Grounded(Run(snapshot, s, schedule)) && s.rows <= Run(snapshot, s, schedule).rows
    ensures Run(snapshot, s, schedule).orders == s.orders
    ensures |Run(snapshot, s, schedule).processes| == |s.processes|
  {
    hide Grounded, Step;
    if schedule != [] {
      var before := schedule[..|schedule| - 1];
      GroundedAfterRun(snapshot, s, before);
      GroundedAfterStep(snapshot, Run(snapshot, s, before), schedule[|schedule| - 1]);
    }
  }

  /** A refund answered is stored under the request's key, for its request, and is the only row
      of that key and of that order. */
  ghost predicate Sole(rows: seq<Refund>, request: RefundRequest, key: string, x: Refund) {
    && x in rows && x.key == key && RequestOf(x) == request
    && forall y | y in rows && (y.key == key || y.orderCode == request.orderCode) :: y == x
  }

  lemma HeldIsSole(orders: Orders, rows: seq<Refund>, p: Process, x: Refund)
    requires StoreValid(orders, rows) && Held(rows, p, x)
    ensures Sole(rows, p.request, p.key, x)
  {
    hide Fingerprint, Eligible;
    assert Justified(orders, x);
    FingerprintFaithful(RequestOf(x), p.request);
    OnlyRow(orders, rows, x);
  }

  lemma HeldIsRow(rows: seq<Refund>, p: Process, x: Refund)
    requires Held(rows, p, x)
    ensures x in rows
  {
  }

  // ---------------------------------------------------------------------
  // Later moments

  lemma DoneStays(snapshot: bool, s: System, i: nat)
    requires i < |s.processes|
    ensures s.processes[i].phase.Done? ==> Step(snapshot, s, i) == s
  {
    hide Validate, ByKey, Clashes, Recovered, Replayed;
  }

  /** Answers stand whoever steps. */
  lemma AnsweredStays(snapshot: bool, s: System, i: nat, k: nat)
    requires i < |s.processes| && k < |s.processes| && s.processes[k].phase.Done?
    ensures |Step(snapshot, s, i).processes| == |s.processes| && Step(snapshot, s, i).processes[k] == s.processes[k]
  {
    hide Step;
    StepIsLocal(snapshot, s, i);
    DoneStays(snapshot, s, i);
  }

  /** `t` is a later moment: the same requests, none of whose answers is withdrawn. */
  ghost predicate Later(s: System, t: System) {
    && |t.processes| == |s.processes| && s.rows <= t.rows
    && forall k | 0 <= k < |s.processes| && s.processes[k].phase.Done? :: t.processes[k] == s.processes[k]
  }

  lemma StepIsLater(snapshot: bool, s: System, i: nat)
    requires Grounded(s)
    ensures Later(s, Step(snapshot, s, i)) && Grounded(Step(snapshot, s, i))
  {
    hide Step, Grounded;
    GroundedAfterStep(snapshot, s, i);
    if i < |s.processes| {
      forall k | 0 <= k < |s.processes| && s.processes[k].phase.Done?
        ensures Step(snapshot, s, i).processes[k] == s.processes[k]
      {
        AnsweredStays(snapshot, s, i, k);
      }
    } else {
      NobodyThere(snapshot, s, i);
    }
  }

  lemma {:induction false} RunIsLater(snapshot: bool, s: System, schedule: seq<nat>)
    requires Grounded(s)
    ensures Later(s, Run(snapshot, s, schedule)) && Grounded(Run(snapshot, s, schedule))
  {
    hide Step, Grounded;
    if schedule != [] {
      var before := schedule[..|schedule| - 1];
      RunIsLater(snapshot, s, before);
      StepIsLater(snapshot, Run(snapshot, s, before), schedule[|schedule| - 1]);
    }
  }

  lemma {:induction false} RunConcat(snapshot: bool, s: System, a: seq<nat>, b: seq<nat>)
    ensures Run(snapshot, s, a + b) == Run(snapshot, Run(snapshot, s, a), b)
    decreases b
  {
    hide Step;
    if b == [] {
      assert a + b == a;
    } else {
      var last := |b| - 1;
      assert (a + b)[..|a + b| - 1] == a + b[..last];
      RunConcat(snapshot, s, a, b[..last]);
    }
  }

  // ---------------------------------------------------------------------
  // Runs of a fixed set of requests

  ghost predicate SameRequests(a: System, b: System) {
    && a.orders == b.orders && |a.processes| == |b.processes|
    && forall i | 0 <= i < |a.processes| ::
         && a.processes[i].request == b.processes[i].request && a.processes[i].key == b.processes[i].key
         && a.processes[i].code == b.processes[i].code
  }

  /** A request past its first lookup, or refused for a refund, found its key free at the start. */
  ghost predicate KeyWasFree(start: System, p: Process) {
    p.phase == KeyAbsent || p.phase == Done(ALREADY_REFUNDED) ==> ByKey(start.rows, p.key).None?
  }

  ghost predicate Kept(start: System, s: System) {
    && SameRequests(start, s) && start.rows <= s.rows && Grounded(s)
    && forall i | 0 <= i < |s.processes| :: KeyWasFree(start, s.processes[i])
  }

  lemma KeyFreeAtStart(start: System, s: System, key: string)
    requires start.rows <= s.rows && ByKey(s.rows, key).None?
    ensures ByKey(start.rows, key).None?
  {
    if ByKey(start.rows, key).Some? {
      ByKeyStable(start.rows, s.rows, key);
    }
  }

  lemma StepKeepsRequest(snapshot: bool, start: System, s: System, i: nat)
    requires start.rows <= s.rows && i < |s.processes| && KeyWasFree(start, s.processes[i])
    ensures var t := Step(snapshot, s, i);
            && i < |t.processes| && KeyWasFree(start, t.processes[i])
            && t.processes[i] == s.processes[i].(phase := t.processes[i].phase)
  {
    hide Refunded, Eligible, ByKey, Fingerprint, Objection, RefundFor, Clashes;
    DetailsDiffer();
    if ByKey(s.rows, s.processes[i].key).None? {
      KeyFreeAtStart(start, s, s.processes[i].key);
    }
  }

  lemma StepKeepsTable(snapshot: bool, start: System, s: System, i: nat)
    requires Kept(start, s)
    ensures Kept(start, Step(snapshot, s, i))
  {
    hide Grounded, KeyWasFree, Step;
    GroundedAfterStep(snapshot, s, i);
    if i < |s.processes| {
      StepIsLocal(snapshot, s, i);
      StepKeepsRequest(snapshot, start, s, i);
    } else {
      NobodyThere(snapshot, s, i);
    }
  }

  /** At every moment of every interleaving the table is valid, no row is ever lost, and every
      phase is backed by the table. */
  lemma {:induction false} RunKeepsTable(snapshot: bool, start: System, schedule: seq<nat>)
    requires Initial(start)
    ensures Kept(start, Run(snapshot, start, schedule))
  {
    hide StoreValid, Step;
    if schedule != [] {
      var before := schedule[..|schedule| - 1];
      RunKeepsTable(snapshot, start, before);
      StepKeepsTable(snapshot, start, Run(snapshot, start, before), schedule[|schedule| - 1]);
    }
  }

  /** Every order has at most one refund, whatever the interleaving: the two refunds of one
      order, or under one key, are one. */
  lemma OneRefundEach(snapshot: bool, start: System, schedule: seq<nat>, x: Refund, y: Refund)
    requires Initial(start)
    requires x in Run(snapshot, start, schedule).rows && y in Run(snapshot, start, schedule).rows
    requires x.orderCode == y.orderCode || x.key == y.key
    ensures x == y && Justified(start.orders, x)
  {
    hide Run, Justified;
    RunKeepsTable(snapshot, start, schedule);
    OnlyRow(start.orders, Run(snapshot, start, schedule).rows, x);
  }

  /** Whoever gets a refund in an interleaving, by creating it, by its key or by recovery, gets
      the one of its own key, request and order. */
  lemma AnswersAreSole(snapshot: bool, start: System, schedule: seq<nat>, i: nat)
    requires Initial(start)
    requires var s := Run(snapshot, start, schedule);
             && i < |s.processes|
             && s.processes[i].phase.Done? && s.processes[i].phase.outcome.Returned?
    ensures var s := Run(snapshot, start, schedule);
            && Sole(s.rows, s.processes[i].request, s.processes[i].key, s.processes[i].phase.outcome.refund)
            && Justified(start.orders, s.processes[i].phase.outcome.refund)
            && (s.processes[i].phase.outcome.created ==>
                  s.processes[i].phase.outcome.refund.code == s.processes[i].code)
  {
    hide Run, Held, Sole, Justified;
    RunKeepsTable(snapshot, start, schedule);
    var s := Run(snapshot, start, schedule);
    assert Stands(s.orders, s.rows, s.processes[i]);
    HeldIsRow(s.rows, s.processes[i], s.processes[i].phase.outcome.refund);
    HeldIsSole(s.orders, s.rows, s.processes[i], s.processes[i].phase.outcome.refund);
  }

  /** After an integrity error, a row found under the request's key with its fingerprint is the
      refund of its own order, for its own request, and that order's only one. */
  lemma RecoveryFindsItsOwn(snapshot: bool, start: System, schedule: seq<nat>, i: nat)
    requires Initial(start)
    requires var s := Run(snapshot, start, schedule);
             && i < |s.processes| && s.processes[i].phase == Conflicted
             && Recovered(s.rows, s.processes[i]).Returned?
    ensures var s := Run(snapshot, start, schedule);
            Sole(s.rows, s.processes[i].request, s.processes[i].key, Recovered(s.rows, s.processes[i]).refund)
  {
    hide Run, StoreValid, Sole, Fingerprint;
    RunKeepsTable(snapshot, start, schedule);
    var s := Run(snapshot, start, schedule);
    HeldIsSole(s.orders, s.rows, s.processes[i], Recovered(s.rows, s.processes[i]).refund);
  }
}
