/** Why a refund request is turned down, whoever else is at work. */
module Refusals {
  import opened Options
  import opened Refunds
  import opened RefundRaces

  /** A row under this key is for another request. */
  ghost predicate KeyTaken(rows: seq<Refund>, r: RefundRequest, key: string) {
    exists x :: x in rows && x.key == key && RequestOf(x) != r
  }

  ghost predicate OrderRefunded(rows: seq<Refund>, orderCode: string) {
    exists x :: x in rows && x.orderCode == orderCode
  }

  /** The refusal is true: of the order, or of the table, in which no row is ever lost. */
  ghost predicate Warranted(orders: Orders, rows: seq<Refund>, r: RefundRequest, key: string, o: Outcome) {
    || (o == Failed(404, "Order " + r.orderCode + " not found") && r.orderCode !in orders)
    || (o == Failed(409, "Idempotency key was already used for a different request") && KeyTaken(rows, r, key))
    || (&& o == Failed(409, "Order has already been refunded")
        && r.orderCode in orders && OrderRefunded(rows, r.orderCode))
    || (&& o == Failed(409, "Refund conflicts with an existing refund") && Passed(orders, r)
        && (KeyTaken(rows, r, key) || OrderRefunded(rows, r.orderCode)))
    || (&& o == Failed(422, "Refund amount cannot exceed order amount")
        && r.orderCode in orders && r.amount > orders[r.orderCode].amount)
    || (&& o == Failed(422, "Order is not eligible: shipment delay must be at least 7 days")
        && r.orderCode in orders && r.amount <= orders[r.orderCode].amount && !Passed(orders, r))
  }

  ghost predicate Answers(orders: Orders, rows: seq<Refund>, p: Process) {
    p.phase.Done? && p.phase.outcome.Failed? ==> Warranted(orders, rows, p.request, p.key, p.phase.outcome)
  }

  ghost predicate AllAnswer(s: System) {
    forall i | 0 <= i < |s.processes| :: Answers(s.orders, s.rows, s.processes[i])
  }

  lemma WarrantStays(orders: Orders, rows: seq<Refund>, more: seq<Refund>, p: Process)
    requires Answers(orders, rows, p) && rows <= more
    ensures Answers(orders, more, p)
  {
    forall x | x in rows ensures x in more {
      RowStays(rows, more, x);
    }
  }

  lemma ObjectionIsWarranted(orders: Orders, rows: seq<Refund>, r: RefundRequest, key: string)
    ensures Objection(orders, rows, r).Some? ==> Warranted(orders, rows, r, key, Objection(orders, rows, r).value)
  {
    assert "Order" + " " == "Order ";
  }

  lemma ReplayIsWarranted(orders: Orders, rows: seq<Refund>, r: RefundRequest, key: string)
    requires StoreValid(orders, rows)
    ensures var found := ByKey(rows, key);
            found.Some? && Replayed(found.value, r).Failed? ==>
              Warranted(orders, rows, r, key, Replayed(found.value, r))
  {
    hide Fingerprint;
    var found := ByKey(rows, key);
    if found.Some? {
      assert Justified(orders, found.value);
      FingerprintFaithful(RequestOf(found.value), r);
    }
  }

  lemma RecoveryIsWarranted(orders: Orders, rows: seq<Refund>, p: Process)
    requires StoreValid(orders, rows) && p.phase == Conflicted && Stands(orders, rows, p)
    ensures Recovered(rows, p).Failed? ==> Warranted(orders, rows, p.request, p.key, Recovered(rows, p))
  {
    hide Fingerprint;
    var found := ByKey(rows, p.key);
    if found.Some? {
      assert Justified(orders, found.value);
      FingerprintFaithful(RequestOf(found.value), p.request);
    }
  }

  lemma StepIsWarranted(snapshot: bool, s: System, i: nat)
    requires Grounded(s) && i < |s.processes| && Answers(s.orders, s.rows, s.processes[i])
    ensures var t := Step(snapshot, s, i);
            i < |t.processes| && Answers(t.orders, t.rows, t.processes[i])
  {
    hide Warranted, StoreValid, Stands, Replayed, Recovered, Objection, RefundFor, Clashes;
    var p := s.processes[i];
    assert Stands(s.orders, s.rows, p);
    ObjectionIsWarranted(s.orders, s.rows, p.request, p.key);
    ReplayIsWarranted(s.orders, s.rows, p.request, p.key);
    if p.phase.Conflicted? {
      RecoveryIsWarranted(s.orders, s.rows, p);
    }
  }

  lemma StepKeepsAnswers(snapshot: bool, s: System, i: nat)
    requires Grounded(s) && AllAnswer(s)
    ensures AllAnswer(Step(snapshot, s, i))
  {
    hide Grounded, Step, Answers;
    if i < |s.processes| {
      StepIsWarranted(snapshot, s, i);
      StepIsLocal(snapshot, s, i);
      GroundedAfterStep(snapshot, s, i);
      var t := Step(snapshot, s, i);
      forall k | 0 <= k < |t.processes| ensures Answers(t.orders, t.rows, t.processes[k]) {
        if k != i {
          WarrantStays(s.orders, s.rows, t.rows, s.processes[k]);
        }
      }
    } else {
      NobodyThere(snapshot, s, i);
    }
  }

  lemma {:induction false} RunKeepsAnswers(snapshot: bool, s: System, schedule: seq<nat>)
    requires Grounded(s) && AllAnswer(s)
    ensures AllAnswer(Run(snapshot, s, schedule))
  {
    hide Grounded, AllAnswer, Step;
    if schedule != [] {
      var before := schedule[..|schedule| - 1];
      RunKeepsAnswers(snapshot, s, before);
      GroundedAfterRun(snapshot, s, before);
      StepKeepsAnswers(snapshot, Run(snapshot, s, before), schedule[|schedule| - 1]);
    }
  }

  /** In every interleaving of any requests, with or without snapshot reads, every refusal is true: its
      status code and its words fit the order it names and the rows of the table. */
  lemma RefusalsAreTrue(snapshot: bool, start: System, schedule: seq<nat>, i: nat)
    requires Initial(start) && i < |Run(snapshot, start, schedule).processes|
    ensures var s := Run(snapshot, start, schedule);
            var p := s.processes[i];
            p.phase.Done? && p.phase.outcome.Failed? ==>
              Warranted(start.orders, s.rows, p.request, p.key, p.phase.outcome)
  {
    hide StoreValid, Run, Warranted;
    RunKeepsAnswers(snapshot, start, schedule);
    GroundedAfterRun(snapshot, start, schedule);
    assert Answers(start.orders, Run(snapshot, start, schedule).rows, Run(snapshot, start, schedule).processes[i]);
  }
}
