/** Which requests can come into conflict with themselves: those with a twin, and no others. */
module RefundTwins {
  import opened Options
  import opened Refunds
  import opened RefundRaces
  import opened RefundOrders

  /** Two copies of one request under one key, acceptable when the run starts. */
  ghost predicate Twins(start: System, i: nat, j: nat) {
    && i != j && i < |start.processes| && j < |start.processes|
    && start.processes[i].request == start.processes[j].request && start.processes[i].key == start.processes[j].key
    && Passed(start.orders, start.processes[i].request)
    && ByKey(start.rows, start.processes[i].key).None?
    && !Refunded(start.rows, start.processes[i].request.orderCode)
  }

  // ---------------------------------------------------------------------
  // Only twins conflict

  /** The row was there at the start, or some request created it. */
  ghost predicate Traced(start: System, s: System, x: Refund) {
    || x in start.rows
    || exists j | 0 <= j < |s.processes| :: s.processes[j].phase == Done(Returned(x, true))
  }

  lemma TraceStays(snapshot: bool, start: System, s: System, i: nat, x: Refund)
    requires Traced(start, s, x)
    ensures Traced(start, Step(snapshot, s, i), x)
  {
    hide Step;
    if x !in start.rows {
      var j :| 0 <= j < |s.processes| && s.processes[j].phase == Done(Returned(x, true));
      if i < |s.processes| {
        StepIsLocal(snapshot, s, i);
        DoneStays(snapshot, s, i);
        assert Step(snapshot, s, i).processes[j].phase == Done(Returned(x, true));
      } else {
        NobodyThere(snapshot, s, i);
      }
    }
  }

  /** A row that a step adds is the one its request then answers with. */
  lemma NewRowIsTraced(snapshot: bool, start: System, s: System, i: nat, x: Refund)
    requires x in Step(snapshot, s, i).rows && x !in s.rows
    ensures Traced(start, Step(snapshot, s, i), x)
  {
    hide Objection, ByKey, Clashes, Recovered, Replayed, RefundFor;
    var t := Step(snapshot, s, i);
    assert i < |t.processes| && t.processes[i].phase == Done(Returned(x, true));
  }

  lemma {:induction false} RowsAreTraced(snapshot: bool, start: System, schedule: seq<nat>, x: Refund)
    requires x in Run(snapshot, start, schedule).rows
    ensures Traced(start, Run(snapshot, start, schedule), x)
  {
    hide Step, Traced;
    if schedule == [] {
      AtTheStart(start, x);
    } else {
      var i := schedule[|schedule| - 1];
      var before := Run(snapshot, start, schedule[..|schedule| - 1]);
      if x in before.rows {
        RowsAreTraced(snapshot, start, schedule[..|schedule| - 1], x);
        TraceStays(snapshot, start, before, i, x);
      } else {
        NewRowIsTraced(snapshot, start, before, i, x);
      }
    }
  }

  lemma AtTheStart(start: System, x: Refund)
    ensures x in start.rows ==> Traced(start, start, x)
  {
  }

  /** A request in conflict with itself has a twin: the one that created the refund. */
  lemma SelfConflictNeedsTwin(start: System, schedule: seq<nat>, i: nat) returns (j: nat)
    requires Initial(start) && SelfConflicted(Run(false, start, schedule), i)
    ensures Twins(start, i, j)
  {
    hide Run, StoreValid, Fingerprint, ByKey, Refunded, Eligible;
    RunKeepsTable(false, start, schedule);
    var s := Run(false, start, schedule);
    var p := s.processes[i];
    assert Stands(s.orders, s.rows, p) && KeyWasFree(start, p);
    var x := ByKey(s.rows, p.key).value;
    RowsAreTraced(false, start, schedule, x);
    assert x !in start.rows;
    j :| 0 <= j < |s.processes| && s.processes[j].phase == Done(Returned(x, true));
    assert Stands(s.orders, s.rows, s.processes[j]);
    HeldIsSole(s.orders, s.rows, p, x);
    HeldIsSole(s.orders, s.rows, s.processes[j], x);
    JustifiedHasPassed(s, x);
    NotRefundedBefore(start, s, p, x);
  }

  lemma JustifiedHasPassed(s: System, x: Refund)
    requires StoreValid(s.orders, s.rows) && x in s.rows
    ensures Passed(s.orders, RequestOf(x))
  {
    hide Fingerprint;
    assert Justified(s.orders, x);
  }

  lemma NotRefundedBefore(start: System, s: System, p: Process, x: Refund)
    requires start.rows <= s.rows && Sole(s.rows, p.request, p.key, x) && x !in start.rows
    ensures !Refunded(start.rows, p.request.orderCode)
  {
    forall y | y in start.rows ensures y.orderCode != p.request.orderCode {
      RowStays(start.rows, s.rows, y);
    }
  }

  // ---------------------------------------------------------------------
  // Twins do conflict

  lemma LookupMisses(s: System, i: nat)
    requires i < |s.processes| && s.processes[i].phase == Begin && ByKey(s.rows, s.processes[i].key).None?
    ensures Step(false, s, i) == At(s, i, KeyAbsent)
  {
  }

  lemma ChecksPass(s: System, i: nat)
    requires i < |s.processes| && s.processes[i].phase == KeyAbsent && Passed(s.orders, s.processes[i].request)
    requires !Refunded(s.rows, s.processes[i].request.orderCode)
    ensures var p := s.processes[i];
            Step(false, s, i) == At(s, i, Committing(RefundFor(s.orders, p.request, p.key, p.code)))
  {
    hide Fingerprint, Refunded;
  }

  lemma CommitsAlone(s: System, i: nat, x: Refund)
    requires i < |s.processes| && s.processes[i].phase == Committing(x) && !Clashes(s.rows, x)
    ensures Step(false, s, i) == Answer(s.(rows := s.rows + [x]), i, Returned(x, true))
  {
    hide Clashes;
  }

  lemma FindsItRefunded(s: System, i: nat)
    requires i < |s.processes| && s.processes[i].phase == KeyAbsent
    requires s.processes[i].request.orderCode in s.orders && Refunded(s.rows, s.processes[i].request.orderCode)
    ensures Step(false, s, i) == Answer(s, i, ALREADY_REFUNDED)
  {
    hide ByKey, Refunded;
  }

  function Interruption(i: nat, j: nat): seq<nat> {
    [i, j, j, j, i]
  }

  /** The twin runs between the two lookups of the first. */
  lemma TwinsConflict(start: System, i: nat, j: nat)
    requires Initial(start) && Twins(start, i, j)
    ensures SelfConflicted(Run(false, start, Interruption(i, j)), i)
  {
    hide Fingerprint, StoreValid, Step, Eligible, Run, ByKey, Refunded;
    var p, q := start.processes[i], start.processes[j];
    var x := RefundFor(start.orders, q.request, q.key, q.code);
    var s1 := At(start, i, KeyAbsent);
    var s2 := At(s1, j, KeyAbsent);
    var s3 := At(s2, j, Committing(x));
    var s4 := Answer(s3.(rows := s3.rows + [x]), j, Returned(x, true));
    LookupMisses(start, i);
    LookupMisses(s1, j);
    ChecksPass(s2, j);
    assert x.key == p.key && x.orderCode == p.request.orderCode && x.fingerprint == Fingerprint(p.request);
    CommitsAlone(s3, j, x);
    NewRowRefunds(start.rows, x);
    FindsItRefunded(s4, i);
    ByKeySnoc(start.rows, x, p.key);
    FiveSteps(start, i, j, j, j, i);
  }

  lemma NewRowRefunds(rows: seq<Refund>, x: Refund)
    ensures Refunded(rows + [x], x.orderCode)
  {
    assert (rows + [x])[|rows|] == x;
  }

  lemma FiveSteps(start: System, a: nat, b: nat, c: nat, d: nat, e: nat)
    ensures Run(false, start, [a, b, c, d, e]) ==
            Step(false, Step(false, Step(false, Step(false, Step(false, start, a), b), c), d), e)
  {
    hide Step, Run;
    NoSteps(start);
    Unroll(false, start, [a, b, c, d], e);
    Unroll(false, start, [a, b, c], d);
    Unroll(false, start, [a, b], c);
    Unroll(false, start, [a], b);
    Unroll(false, start, [], a);
    assert [] + [a] == [a] && [a] + [b] == [a, b] && [a, b] + [c] == [a, b, c];
    assert [a, b, c] + [d] == [a, b, c, d] && [a, b, c, d] + [e] == [a, b, c, d, e];
  }

  lemma NoSteps(start: System)
    ensures Run(false, start, []) == start
  {
  }

  // ---------------------------------------------------------------------
  // Finishing a run

  /** Steps a request has left at most. */
  function Left(phase: Phase): nat {
    match phase
    case Begin => 4
    case KeyAbsent => 3
    case Committing(_) => 2
    case Conflicted => 1
    case Done(_) => 0
  }

  lemma StepSpends(s: System, i: nat)
    requires i < |s.processes|
    ensures var t := Step(false, s, i);
            && |t.processes| == |s.processes|
            && Left(t.processes[i].phase) <= (if s.processes[i].phase.Done? then 0 else Left(s.processes[i].phase) - 1)
  {
    hide Objection, ByKey, Clashes, Recovered, Replayed, RefundFor;
  }

  function Times(n: nat, i: nat): seq<nat> {
    if n == 0 then [] else Times(n - 1, i) + [i]
  }

  function Everyone(n: nat): seq<nat> {
    if n == 0 then [] else Everyone(n - 1) + Times(4, n - 1)
  }

  lemma {:induction false} TimesFinish(s: System, n: nat, i: nat)
    requires Grounded(s) && i < |s.processes|
    ensures var t := Run(false, s, Times(n, i));
            && Later(s, t) && Grounded(t)
            && Left(t.processes[i].phase) <=
               if Left(s.processes[i].phase) <= n then 0 else Left(s.processes[i].phase) - n
    decreases n
  {
    hide Step, Run, Grounded;
    if n == 0 {
      SameMoment(s);
    } else {
      TimesFinish(s, n - 1, i);
      var t := Run(false, s, Times(n - 1, i));
      Unroll(false, s, Times(n - 1, i), i);
      StepIsLater(false, t, i);
      StepSpends(t, i);
    }
  }

  lemma SameMoment(s: System)
    ensures Run(false, s, []) == s && Later(s, s)
  {
  }

  lemma {:induction false} EveryoneFinishes(s: System, n: nat)
    requires Grounded(s) && n <= |s.processes|
    ensures var t := Run(false, s, Everyone(n));
            Later(s, t) && Grounded(t) && forall k | 0 <= k < n :: t.processes[k].phase.Done?
    decreases n
  {
    hide Step, Run, Grounded, Times;
    if n == 0 {
      SameMoment(s);
    } else {
      EveryoneFinishes(s, n - 1);
      var t := Run(false, s, Everyone(n - 1));
      RunConcat(false, s, Everyone(n - 1), Times(4, n - 1));
      TimesFinish(t, 4, n - 1);
      AtMostFour(t.processes[n - 1].phase);
    }
  }

  lemma AtMostFour(phase: Phase)
    ensures Left(phase) <= 4
  {
  }

  // ---------------------------------------------------------------------
  // The requests decide

  /** With twins among the requests, some complete interleaving looks like no sequential order. */
  lemma TwinsBreakOrder(start: System, i: nat, j: nat) returns (schedule: seq<nat>)
    requires Initial(start) && Twins(start, i, j)
    ensures Complete(Run(false, start, schedule))
    ensures forall order :: !Explains(start, Run(false, start, schedule), order)
  {
    hide Run, Grounded, SelfConflicted, Explains, StoreValid, Everyone, Interruption;
    schedule := Interruption(i, j) + Everyone(|start.processes|);
    var met := Run(false, start, Interruption(i, j));
    TwinsConflict(start, i, j);
    RunKeepsTable(false, start, Interruption(i, j));
    EveryoneFinishes(met, |met.processes|);
    RunConcat(false, start, Interruption(i, j), Everyone(|start.processes|));
    var end := Run(false, start, schedule);
    ConflictStays(met, end, i);
    RunKeepsTable(false, start, schedule);
    forall order ensures !Explains(start, end, order) {
      SelfConflictIsNotSerial(start, end, i, order);
    }
  }

  lemma ConflictStays(s: System, t: System, i: nat)
    requires SelfConflicted(s, i) && Later(s, t)
    ensures SelfConflicted(t, i)
  {
    SelfConflictStays(s, t, i);
  }

  /** Without twins, every complete interleaving looks like some sequential order that keeps to the
      time of the calls. */
  lemma NoTwinsKeepOrder(start: System, schedule: seq<nat>)
    requires Initial(start) && Complete(Run(false, start, schedule))
    requires forall i: nat, j: nat :: !Twins(start, i, j)
    ensures exists order :: Explains(start, Run(false, start, schedule), order) && InTime(false, start, schedule, order)
  {
    hide Run, Initial, Complete, Twins, Explains, SelfConflicted, InTime;
    RacesAreSerialUnlessSelfConflicted(start, schedule);
    forall i: nat ensures !SelfConflicted(Run(false, start, schedule), i) {
      if SelfConflicted(Run(false, start, schedule), i) {
        var j := SelfConflictNeedsTwin(start, schedule, i);
      }
    }
  }

  /** Once complete, the run gives the refunds and status codes of some sequential order. */
  ghost predicate Serial(start: System, schedule: seq<nat>) {
    Complete(Run(false, start, schedule)) ==> exists order :: Explains(start, Run(false, start, schedule), order)
  }

  /** And of one that puts no request before another that was answered when it began. */
  ghost predicate Linearizable(start: System, schedule: seq<nat>) {
    Complete(Run(false, start, schedule)) ==>
      exists order :: Explains(start, Run(false, start, schedule), order) && InTime(false, start, schedule, order)
  }

  /** Two lookups at different moments are safe for these requests, whatever their timing, exactly
      when no acceptable request is sent twice under its key; and safe then means linearizable. */
  lemma RequestsDecide(start: System)
    requires Initial(start)
    ensures (forall schedule :: Serial(start, schedule)) <==> (forall i: nat, j: nat :: !Twins(start, i, j))
    ensures (forall schedule :: Linearizable(start, schedule)) <==> (forall i: nat, j: nat :: !Twins(start, i, j))
  {
    hide Run, Initial, Complete, Twins, Explains, InTime;
    if forall i: nat, j: nat :: !Twins(start, i, j) {
      forall schedule ensures Serial(start, schedule) && Linearizable(start, schedule) {
        if Complete(Run(false, start, schedule)) {
          NoTwinsKeepOrder(start, schedule);
        }
      }
    } else {
      var i: nat, j: nat :| Twins(start, i, j);
      var schedule := TwinsBreakOrder(start, i, j);
      assert !Serial(start, schedule) && !Linearizable(start, schedule);
    }
  }
}
