/** The agent loop against the refund service. Each attempt of the agent and each call of another
    client becomes a process of its own, whose database operations may come at any later time:
    a call may never run, run and lose its answer, or still be under way while it is retried. */
module ExactlyOnce {
  import opened Options
  import opened Json
  import opened Refunds
  import opened RefundRaces
  import opened RefundService
  import opened Reliability
  import opened AgentLoop
  import opened AgentLaws
  import opened AgentRuns
  import Sayings

  datatype RefundCall = RefundCall(request: RefundRequest, key: string)

  /** A ticket call: opened or refused at its only turn. */
  datatype TicketProcess = TicketProcess(request: TicketRequest, code: string, outcome: Option<TicketOutcome>)

  datatype Desk = Desk(processes: seq<TicketProcess>, tickets: seq<Ticket>)

  datatype World = World(refunds: System, desk: Desk)

  /** The service behind the tools. Argument validation, the codes drawn, the other clients, who
      takes a turn when, which answers arrive, and what is heard instead are arbitrary; `i`
      numbers the attempts of the run. */
  datatype Shop = Shop(
    customers: set<string>,
    parseRefund: Json -> Option<RefundCall>,
    parseTicket: Json -> Option<TicketRequest>,
    errors: Json -> Json,
    read: (World, string, Json) -> Fields,
    codes: nat -> string,
    others: nat -> seq<Process>,
    otherTickets: nat -> seq<TicketProcess>,
    snapshot: bool,
    turns: nat -> seq<nat>,
    ticketTurns: nat -> seq<nat>,
    delivered: nat -> bool,
    trouble: nat -> ToolReply)

  // ---------------------------------------------------------------------
  // The tools

  function RefundData(x: Refund, created: bool): Fields {
    [Field("code", Str(x.code)), Field("order_code", Str(x.orderCode)), Field("amount", Str(Cents(x.amount))),
     Field("currency", Str(x.currency)), Field("status", Str(x.status)), Field("created", Bool(created)),
     Field("completed", Bool(x.status == "approved"))]
  }

  function Success(data: Fields): Fields {
    [Field("ok", Bool(true)), Field("data", Obj(data))]
  }

  function Failure(kind: string, message: string, details: Json): Fields {
    [Field("ok", Bool(false)),
     Field("error", Obj([Field("type", Str(kind)), Field("message", Str(message)), Field("details", details)]))]
  }

  function RefundResult(o: Outcome): Fields {
    match o
    case Returned(x, created) => Success(RefundData(x, created))
    case Failed(status, detail) => Failure("business_error", detail, Obj([Field("status_code", Int(status))]))
  }

  function TicketResult(o: TicketOutcome): Fields {
    match o
    case Opened(t) =>
      Success([Field("code", Str(t.code)), Field("customer_code", Str(t.customerCode)),
               Field("order_code", match t.orderCode case Some(code) => Str(code) case None => Null),
               Field("status", Str(t.status)), Field("priority", Str(t.priority))])
    case Rejected(error) => RefundResult(error)
  }

  /** `errors` are the validator's. */
  function Invalid(errors: Json): Fields {
    Failure("invalid_arguments", "Tool arguments failed validation", errors)
  }

  // ---------------------------------------------------------------------
  // The world

  /** Processes join with nothing done yet. */
  function Joined(s: System, newcomers: seq<Process>): System {
    s.(processes := s.processes + seq(|newcomers|, k requires 0 <= k < |newcomers| => newcomers[k].(phase := Begin)))
  }

  function JoinedDesk(d: Desk, newcomers: seq<TicketProcess>): Desk {
    d.(processes := d.processes + seq(|newcomers|, k requires 0 <= k < |newcomers| => newcomers[k].(outcome := None)))
  }

  /** The turn of a ticket call. */
  function TicketTurn(customers: set<string>, orders: Orders, d: Desk, i: nat): Desk {
    if i >= |d.processes| || d.processes[i].outcome.Some? then d
    else
      var p := d.processes[i];
      var outcome := OpenTicket(customers, orders, p.request, p.code);
      Desk(d.processes[i := p.(outcome := Some(outcome))],
           if outcome.Opened? then d.tickets + [outcome.ticket] else d.tickets)
  }

  function TicketTurns(customers: set<string>, orders: Orders, d: Desk, turns: seq<nat>): Desk {
    if turns == [] then d
    else TicketTurn(customers, orders, TicketTurns(customers, orders, d, turns[..|turns| - 1]), turns[|turns| - 1])
  }

  /** The refund call among a tool call, and the ticket call. */
  function RefundCalls(shop: Shop, i: nat, name: string, arguments: Json): seq<Process> {
    if name == "create_refund" && shop.parseRefund(arguments).Some? then
      var c := shop.parseRefund(arguments).value;
      [Process(c.request, c.key, shop.codes(i), Begin)]
    else []
  }

  function TicketCalls(shop: Shop, i: nat, name: string, arguments: Json): seq<TicketProcess> {
    if name == "create_support_ticket" && shop.parseTicket(arguments).Some? then
      [TicketProcess(shop.parseTicket(arguments).value, shop.codes(i), None)]
    else []
  }

  /** Other clients' calls have arrived, and then this one. */
  function Arrived(shop: Shop, w: World, i: nat, refunds: seq<Process>, tickets: seq<TicketProcess>): World {
    World(Joined(Joined(w.refunds, shop.others(i)), refunds),
      JoinedDesk(JoinedDesk(w.desk, shop.otherTickets(i)), tickets))
  }

  /** The turns taken before attempt `i` is heard of. */
  function Moved(shop: Shop, w: World, i: nat): World {
    World(RefundRaces.Run(shop.snapshot, w.refunds, shop.turns(i)),
          TicketTurns(shop.customers, w.refunds.orders, w.desk, shop.ticketTurns(i)))
  }

  function Attempted(shop: Shop, w: World, i: nat, name: string, arguments: Json): World {
    Moved(shop, Arrived(shop, w, i, RefundCalls(shop, i, name, arguments), TicketCalls(shop, i, name, arguments)), i)
  }

  function WorldAfter(shop: Shop, start: World, log: seq<Attempt>): World {
    if log == [] then start
    else
      var i := |log| - 1;
      var before := WorldAfter(shop, start, log[..i]);
      match log[i]
      case Asked(_, _) => Moved(shop, Arrived(shop, before, i, [], []), i)
      case Tried(call, _) => Attempted(shop, before, i, call.name, call.arguments)
  }

  /** The answer of the last refund process, if it has one. */
  function RefundAnswer(s: System): Option<Fields> {
    if s.processes != [] && s.processes[|s.processes| - 1].phase.Done? then
      Some(RefundResult(s.processes[|s.processes| - 1].phase.outcome))
    else None
  }

  function TicketAnswer(d: Desk): Option<Fields> {
    if d.processes != [] && d.processes[|d.processes| - 1].outcome.Some? then
      Some(TicketResult(d.processes[|d.processes| - 1].outcome.value))
    else None
  }

  /** What the tool has to say of attempt `i`, once the turns were taken. */
  function AnswerOf(shop: Shop, w: World, name: string, arguments: Json): Option<Fields> {
    if name == "create_refund" then
      if shop.parseRefund(arguments).None? then Some(Invalid(shop.errors(arguments))) else RefundAnswer(w.refunds)
    else if name == "create_support_ticket" then
      if shop.parseTicket(arguments).None? then Some(Invalid(shop.errors(arguments))) else TicketAnswer(w.desk)
    else Some(shop.read(w, name, arguments))
  }

  /** What the agent hears of a call: its answer, if there is one and it arrives, and else some
      trouble. */
  function Reply(shop: Shop, start: World, log: seq<Attempt>, name: string, arguments: Json): ToolReply {
    var i := |log|;
    var answer := AnswerOf(shop, Attempted(shop, WorldAfter(shop, start, log), i, name, arguments), name, arguments);
    if shop.delivered(i) && answer.Some? then ToolReply.Returned(Obj(answer.value)) else shop.trouble(i)
  }

  /** The agent's tools are this shop's, and trouble is no success. */
  ghost predicate Attached(env: Env, shop: Shop, start: World) {
    && env.config.Valid() && Grounded(start.refunds)
    && start.desk.processes == []
    && (forall i, name :: !Ok(ResultOf(name, shop.trouble(i))))
    && forall log, name, arguments :: env.tools(log, name, arguments) == Reply(shop, start, log, name, arguments)
  }

  // ---------------------------------------------------------------------
  // The table of refunds

  lemma JoinedIsGrounded(s: System, newcomers: seq<Process>)
    requires Grounded(s)
    ensures Grounded(Joined(s, newcomers))
  {
    hide StoreValid, RefundFor, Eligible, Held, ByKey, Refunded;
    var t := Joined(s, newcomers);
    forall k | 0 <= k < |t.processes| ensures Stands(t.orders, t.rows, t.processes[k]) {
      if k < |s.processes| {
        assert t.processes[k] == s.processes[k];
      } else {
        assert t.processes[k].phase == Begin;
      }
    }
  }

  /** Arrivals and turns keep the table, and its rows. */
  lemma MovedIsGrounded(shop: Shop, w: World, i: nat, refunds: seq<Process>, tickets: seq<TicketProcess>)
    requires Grounded(w.refunds)
    ensures var t := Moved(shop, Arrived(shop, w, i, refunds, tickets), i).refunds;
            Grounded(t) && w.refunds.rows <= t.rows && t.orders == w.refunds.orders
  {
    hide Grounded, RefundRaces.Run, TicketTurns;
    JoinedIsGrounded(w.refunds, shop.others(i));
    JoinedIsGrounded(Joined(w.refunds, shop.others(i)), refunds);
    GroundedAfterRun(shop.snapshot, Arrived(shop, w, i, refunds, tickets).refunds, shop.turns(i));
  }

  /** Whatever was tried, ran, was lost or is still under way, and whatever the other clients do:
      the table is valid, so every order and every key has at most one refund. */
  lemma {:induction false} WorldIsGrounded(shop: Shop, start: World, log: seq<Attempt>)
    requires Grounded(start.refunds)
    ensures Grounded(WorldAfter(shop, start, log).refunds)
  {
    hide Grounded, Moved, Arrived;
    if log != [] {
      var i := |log| - 1;
      var before := WorldAfter(shop, start, log[..i]);
      WorldIsGrounded(shop, start, log[..i]);
      match log[i]
      case Asked(_, _) => MovedIsGrounded(shop, before, i, [], []);
      case Tried(call, _) =>
        MovedIsGrounded(shop, before, i, RefundCalls(shop, i, call.name, call.arguments),
                        TicketCalls(shop, i, call.name, call.arguments));
    }
  }

  /** Rows are never lost. */
  lemma {:induction false} RowsStay(shop: Shop, start: World, log: seq<Attempt>, n: nat)
    requires Grounded(start.refunds) && n <= |log|
    ensures WorldAfter(shop, start, log[..n]).refunds.rows <= WorldAfter(shop, start, log).refunds.rows
  {
    hide Grounded, Moved, Arrived;
    if n == |log| {
      assert log[..n] == log;
    } else {
      var i := |log| - 1;
      var before := WorldAfter(shop, start, log[..i]);
      assert log[..i][..n] == log[..n];
      RowsStay(shop, start, log[..i], n);
      WorldIsGrounded(shop, start, log[..i]);
      match log[i]
      case Asked(_, _) => MovedIsGrounded(shop, before, i, [], []);
      case Tried(call, _) =>
        MovedIsGrounded(shop, before, i, RefundCalls(shop, i, call.name, call.arguments),
                        TicketCalls(shop, i, call.name, call.arguments));
    }
  }

  // ---------------------------------------------------------------------
  // Refunds

  lemma {:induction false} RequestStays(snapshot: bool, s: System, schedule: seq<nat>, k: nat)
    requires k < |s.processes|
    ensures var t := RefundRaces.Run(snapshot, s, schedule);
            && |t.processes| == |s.processes|
            && t.processes[k] == s.processes[k].(phase := t.processes[k].phase)
  {
    hide Step;
    if schedule != [] {
      var t := RefundRaces.Run(snapshot, s, schedule[..|schedule| - 1]);
      var i := schedule[|schedule| - 1];
      RequestStays(snapshot, s, schedule[..|schedule| - 1], k);
      if i < |t.processes| {
        StepIsLocal(snapshot, t, i);
        RequestKept(snapshot, t, i);
      } else {
        NobodyThere(snapshot, t, i);
      }
    }
  }

  lemma RequestKept(snapshot: bool, s: System, i: nat)
    requires i < |s.processes|
    ensures var t := Step(snapshot, s, i);
            i < |t.processes| && t.processes[i] == s.processes[i].(phase := t.processes[i].phase)
  {
    hide Refunded, Eligible, ByKey, Fingerprint, Objection, RefundFor, Clashes;
  }

  lemma SuccessOnlyWhenReturned(o: Outcome)
    ensures Ok(RefundResult(o)) <==> o.Returned?
  {
    hide RefundData;
  }

  lemma InvalidIsNotOk(errors: Json)
    ensures !Ok(Invalid(errors))
  {
  }

  lemma SoleStays(orders: Orders, rows: seq<Refund>, more: seq<Refund>, c: RefundCall, x: Refund)
    requires Sole(rows, c.request, c.key, x) && rows <= more && StoreValid(orders, more)
    ensures Sole(more, c.request, c.key, x)
  {
    RowStays(rows, more, x);
    OnlyRow(orders, more, x);
  }

  /** The process of a refund call is the last to arrive. */
  lemma OwnProcess(shop: Shop, w: World, i: nat, arguments: Json, c: RefundCall)
    requires shop.parseRefund(arguments) == Some(c)
    ensures var ps := Attempted(shop, w, i, "create_refund", arguments).refunds.processes;
            ps != [] && ps[|ps| - 1].request == c.request && ps[|ps| - 1].key == c.key
  {
    hide RefundRaces.Run, TicketTurns;
    var calls := RefundCalls(shop, i, "create_refund", arguments);
    assert calls == [Process(c.request, c.key, shop.codes(i), Begin)];
    var s := Arrived(shop, w, i, calls, TicketCalls(shop, i, "create_refund", arguments)).refunds;
    assert s.processes[|s.processes| - 1] == calls[0];
    RequestStays(shop.snapshot, s, shop.turns(i), |s.processes| - 1);
  }

  /** A refund call that is answered with success has its refund in the table. */
  lemma AnsweredRefund(shop: Shop, w: World, i: nat, arguments: Json) returns (c: RefundCall, x: Refund, created: bool)
    requires Grounded(w.refunds)
    requires var answer := AnswerOf(shop, Attempted(shop, w, i, "create_refund", arguments),
                                    "create_refund", arguments);
             answer.Some? && Ok(answer.value)
    ensures shop.parseRefund(arguments) == Some(c)
    ensures AnswerOf(shop, Attempted(shop, w, i, "create_refund", arguments), "create_refund", arguments)
            == Some(Success(RefundData(x, created)))
    ensures Sole(Attempted(shop, w, i, "create_refund", arguments).refunds.rows, c.request, c.key, x)
  {
    hide Moved, Arrived, RefundData, Ok, Invalid, StoreValid, Sole, Held, RefundCalls, TicketCalls;
    InvalidIsNotOk(shop.errors(arguments));
    c := shop.parseRefund(arguments).value;
    OwnProcess(shop, w, i, arguments, c);
    MovedIsGrounded(shop, w, i, RefundCalls(shop, i, "create_refund", arguments),
                    TicketCalls(shop, i, "create_refund", arguments));
    var s := Attempted(shop, w, i, "create_refund", arguments).refunds;
    var p := s.processes[|s.processes| - 1];
    SuccessOnlyWhenReturned(p.phase.outcome);
    assert Stands(s.orders, s.rows, p);
    x, created := p.phase.outcome.refund, p.phase.outcome.created;
    HeldIsSole(s.orders, s.rows, p, x);
  }

  lemma MalformedIsNotOk(kind: string, message: string)
    ensures !Ok(ErrorResult(kind, message))
  {
  }

  /** A success was answered and delivered, and passes unchanged. */
  lemma OkWasDelivered(shop: Shop, start: World, log: seq<Attempt>, name: string, arguments: Json)
    requires !Ok(ResultOf(name, shop.trouble(|log|))) && Ok(ResultOf(name, Reply(shop, start, log, name, arguments)))
    ensures var answer := AnswerOf(shop, Attempted(shop, WorldAfter(shop, start, log), |log|, name, arguments),
                                   name, arguments);
            && shop.delivered(|log|) && answer.Some?
            && ResultOf(name, Reply(shop, start, log, name, arguments)) == answer.value
  {
    hide AnswerOf, Attempted, WorldAfter, Sayings.Say;
    MalformedIsNotOk("malformed_tool_result", Sayings.Say(Sayings.ToolUnusable(name)));
  }

  /** The answer to a refund call that made or found the refund: "completed" means that no human
      has to approve it. */
  ghost predicate ReportsRefund(result: Fields, x: Refund, created: bool) {
    result ==
      [Field("ok", Bool(true)),
       Field("data", Obj([Field("code", Str(x.code)), Field("order_code", Str(x.orderCode)),
                          Field("amount", Str(Cents(x.amount))), Field("currency", Str(x.currency)),
                          Field("status", Str(x.status)), Field("created", Bool(created)),
                          Field("completed", Bool(x.amount <= 100000))]))]
  }

  /** The answer to a refused one: the service's status and sentence, and nothing of a retry. */
  ghost predicate ReportsRefusal(result: Fields, status: nat, detail: string) {
    result ==
      [Field("ok", Bool(false)),
       Field("error", Obj([Field("type", Str("business_error")), Field("message", Str(detail)),
                           Field("details", Obj([Field("status_code", Int(status))]))]))]
  }

  /** Arguments that fail validation are refused with the validator's errors, whatever the world. */
  lemma InvalidIsReported(shop: Shop, w: World, name: string, arguments: Json)
    requires || (name == "create_refund" && shop.parseRefund(arguments).None?)
             || (name == "create_support_ticket" && shop.parseTicket(arguments).None?)
    ensures AnswerOf(shop, w, name, arguments) == Some(
              [Field("ok", Bool(false)),
               Field("error", Obj([Field("type", Str("invalid_arguments")),
                                   Field("message", Str("Tool arguments failed validation")),
                                   Field("details", shop.errors(arguments))]))])
  {
    NamesDiffer();
  }

  /** The answer of a refund process that is done says what its outcome is. */
  lemma OutcomesAreReported(s: System)
    requires Grounded(s) && s.processes != [] && s.processes[|s.processes| - 1].phase.Done?
    ensures RefundAnswer(s).Some?
    ensures match s.processes[|s.processes| - 1].phase.outcome
            case Returned(x, created) => Justified(s.orders, x) && ReportsRefund(RefundAnswer(s).value, x, created)
            case Failed(status, detail) => ReportsRefusal(RefundAnswer(s).value, status, detail)
  {
    hide RefundData, ReportsRefund, Justified;
    var p := s.processes[|s.processes| - 1];
    assert Stands(s.orders, s.rows, p);
    if p.phase.outcome.Returned? {
      RefundIsReported(s.orders, p.phase.outcome.refund, p.phase.outcome.created);
    }
  }

  lemma RefundIsReported(orders: Orders, x: Refund, created: bool)
    requires Justified(orders, x)
    ensures ReportsRefund(Success(RefundData(x, created)), x, created)
  {
    hide Cents, Fingerprint;
    assert "pending_human_approval" != "approved" by {
      assert |"pending_human_approval"| != |"approved"|;
    }
  }

  /** A `create_refund` call that ends ok, after however many lost, failed or overlapping attempts
      and whatever other clients did: the table holds exactly one refund under its key and
      exactly one for its order, the two are the same, it is for the call's request, and it is
      the one reported; and so it stays whatever attempts still under way go on to do. */
  lemma RefundsExactlyOnce(env: Env, shop: Shop, start: World, i: nat, more: seq<nat>)
      returns (c: RefundCall, x: Refund, created: bool)
    requires Attached(env, shop, start) && i < |AgentLoop.Run(env).agent.events|
    requires var e := AgentLoop.Run(env).agent.events[i]; e.call.name == "create_refund" && Ok(e.result)
    ensures shop.parseRefund(AgentLoop.Run(env).agent.events[i].call.arguments) == Some(c)
    ensures ReportsRefund(AgentLoop.Run(env).agent.events[i].result, x, created)
    ensures Justified(start.refunds.orders, x)
    ensures var s := WorldAfter(shop, start, AgentLoop.Run(env).agent.log).refunds;
            && Sole(s.rows, c.request, c.key, x)
            && Sole(RefundRaces.Run(shop.snapshot, s, more).rows, c.request, c.key, x)
  {
    hide AgentLoop.Run, RefundRaces.Run, Grounded, Attempted, Reply, AnswerOf, WorldAfter, RefundData, Sole,
         Ok, Config.Valid, ReportsRefund, Justified;
    var log, e := AgentLoop.Run(env).agent.log, AgentLoop.Run(env).agent.events[i];
    var k := WitnessOf(env, i);
    OkWasDelivered(shop, start, log[..k], e.call.name, e.call.arguments);
    WorldIsGrounded(shop, start, log[..k]);
    c, x, created := AnsweredRefund(shop, WorldAfter(shop, start, log[..k]), k, e.call.arguments);
    assert log[..k + 1][..k] == log[..k] && log[..k + 1][k] == log[k];
    WorldNext(shop, start, log[..k + 1]);
    RowsStay(shop, start, log, k + 1);
    WorldIsGrounded(shop, start, log);
    var s := WorldAfter(shop, start, log).refunds;
    StoreOf(s);
    OrdersStay(shop, start, log);
    SoleIsRow(s.rows, c, x, WorldAfter(shop, start, log[..k + 1]).refunds.rows);
    RefundIsReported(s.orders, x, created);
    SoleStays(s.orders, WorldAfter(shop, start, log[..k + 1]).refunds.rows, s.rows, c, x);
    GroundedAfterRun(shop.snapshot, s, more);
    StoreOf(RefundRaces.Run(shop.snapshot, s, more));
    SoleStays(s.orders, s.rows, RefundRaces.Run(shop.snapshot, s, more).rows, c, x);
  }

  lemma SoleIsRow(all: seq<Refund>, c: RefundCall, x: Refund, rows: seq<Refund>)
    requires Sole(rows, c.request, c.key, x) && rows <= all
    ensures x in all
  {
    RowStays(rows, all, x);
  }

  lemma {:induction false} OrdersStay(shop: Shop, start: World, log: seq<Attempt>)
    requires Grounded(start.refunds)
    ensures WorldAfter(shop, start, log).refunds.orders == start.refunds.orders
  {
    hide Grounded, Moved, Arrived;
    if log != [] {
      var i := |log| - 1;
      var before := WorldAfter(shop, start, log[..i]);
      WorldIsGrounded(shop, start, log[..i]);
      OrdersStay(shop, start, log[..i]);
      match log[i]
      case Asked(_, _) => MovedIsGrounded(shop, before, i, [], []);
      case Tried(call, _) =>
        MovedIsGrounded(shop, before, i, RefundCalls(shop, i, call.name, call.arguments),
                        TicketCalls(shop, i, call.name, call.arguments));
    }
  }

  lemma StoreOf(s: System)
    requires Grounded(s)
    ensures StoreValid(s.orders, s.rows)
  {
  }

  lemma WorldNext(shop: Shop, start: World, log: seq<Attempt>)
    requires log != [] && log[|log| - 1].Tried?
    ensures var i, call := |log| - 1, log[|log| - 1].call;
            WorldAfter(shop, start, log) ==
            Attempted(shop, WorldAfter(shop, start, log[..i]), i, call.name, call.arguments)
  {
    hide Attempted;
  }

  // ---------------------------------------------------------------------
  // Tickets

  /** Ticket calls of this agent, and of the others, up to an attempt. */
  function TicketsStarted(log: seq<Attempt>): nat {
    if log == [] then 0
    else
      var x := log[|log| - 1];
      TicketsStarted(log[..|log| - 1]) + if x.Tried? && x.call.name == "create_support_ticket" then 1 else 0
  }

  function OthersStarted(shop: Shop, n: nat): nat {
    if n == 0 then 0 else OthersStarted(shop, n - 1) + |shop.otherTickets(n - 1)|
  }

  /** Calls that have had their turn. */
  function Finished(ps: seq<TicketProcess>): nat {
    if ps == [] then 0 else Finished(ps[..|ps| - 1]) + if ps[|ps| - 1].outcome.Some? then 1 else 0
  }

  lemma {:induction false} FinishedBounded(ps: seq<TicketProcess>)
    ensures Finished(ps) <= |ps|
  {
    if ps != [] {
      FinishedBounded(ps[..|ps| - 1]);
    }
  }

  lemma {:induction false} FinishedConcat(ps: seq<TicketProcess>, qs: seq<TicketProcess>)
    requires forall k | 0 <= k < |qs| :: qs[k].outcome.None?
    ensures Finished(ps + qs) == Finished(ps)
  {
    if qs == [] {
      assert ps + qs == ps;
    } else {
      assert (ps + qs)[..|ps + qs| - 1] == ps + qs[..|qs| - 1];
      FinishedConcat(ps, qs[..|qs| - 1]);
    }
  }

  lemma {:induction false} FinishedUpdate(ps: seq<TicketProcess>, i: nat, p: TicketProcess)
    requires i < |ps| && ps[i].outcome.None? && p.outcome.Some?
    ensures Finished(ps[i := p]) == Finished(ps) + 1
  {
    var last := |ps| - 1;
    if i < last {
      assert ps[i := p][..last] == ps[..last][i := p];
      FinishedUpdate(ps[..last], i, p);
    } else {
      assert ps[i := p][..last] == ps[..last];
    }
  }

  /** No call has opened more than one ticket. */
  ghost predicate Single(d: Desk, before: nat) {
    |d.tickets| <= before + Finished(d.processes)
  }

  lemma {:induction false} TurnsKeepSingle(customers: set<string>, orders: Orders, d: Desk, turns: seq<nat>,
                                           before: nat)
    requires Single(d, before)
    ensures var e := TicketTurns(customers, orders, d, turns);
            Single(e, before) && |e.processes| == |d.processes|
  {
    hide OpenTicket, Finished;
    if turns != [] {
      TurnsKeepSingle(customers, orders, d, turns[..|turns| - 1], before);
      var e, i := TicketTurns(customers, orders, d, turns[..|turns| - 1]), turns[|turns| - 1];
      if i < |e.processes| && e.processes[i].outcome.None? {
        var p := e.processes[i];
        FinishedUpdate(e.processes, i, p.(outcome := Some(OpenTicket(customers, orders, p.request, p.code))));
      }
    }
  }

  lemma ArrivalsKeepSingle(d: Desk, newcomers: seq<TicketProcess>, before: nat)
    requires Single(d, before)
    ensures Single(JoinedDesk(d, newcomers), before)
    ensures |JoinedDesk(d, newcomers).processes| == |d.processes| + |newcomers|
  {
    var qs := seq(|newcomers|, k requires 0 <= k < |newcomers| => newcomers[k].(outcome := None));
    FinishedConcat(d.processes, qs);
  }

  lemma MovedKeepsSingle(shop: Shop, w: World, i: nat, refunds: seq<Process>, tickets: seq<TicketProcess>, before: nat)
    requires Single(w.desk, before)
    ensures var d := Moved(shop, Arrived(shop, w, i, refunds, tickets), i).desk;
            Single(d, before) && |d.processes| == |w.desk.processes| + |shop.otherTickets(i)| + |tickets|
  {
    hide Single, RefundRaces.Run, Joined, TicketTurns;
    ArrivalsKeepSingle(w.desk, shop.otherTickets(i), before);
    ArrivalsKeepSingle(JoinedDesk(w.desk, shop.otherTickets(i)), tickets, before);
    var v := Arrived(shop, w, i, refunds, tickets);
    TurnsKeepSingle(shop.customers, v.refunds.orders, v.desk, shop.ticketTurns(i), before);
  }

  lemma {:induction false} DeskIsSingle(shop: Shop, start: World, log: seq<Attempt>)
    requires start.desk.processes == []
    ensures var d := WorldAfter(shop, start, log).desk;
            && Single(d, |start.desk.tickets|)
            && |d.processes| <= TicketsStarted(log) + OthersStarted(shop, |log|)
  {
    hide Moved, Arrived, Single, RefundCalls;
    if log == [] {
      EmptyDesk(start.desk);
    } else {
      var i, before := |log| - 1, |start.desk.tickets|;
      var w := WorldAfter(shop, start, log[..i]);
      DeskIsSingle(shop, start, log[..i]);
      match log[i]
      case Asked(_, _) => MovedKeepsSingle(shop, w, i, [], [], before);
      case Tried(call, _) =>
        MovedKeepsSingle(shop, w, i, RefundCalls(shop, i, call.name, call.arguments),
                         TicketCalls(shop, i, call.name, call.arguments), before);
    }
  }

  lemma EmptyDesk(d: Desk)
    requires d.processes == []
    ensures Single(d, |d.tickets|)
  {
  }

  /** Tickets never outnumber the calls to open one, this agent's and the others'. */
  lemma TicketsAreStarted(shop: Shop, start: World, log: seq<Attempt>)
    requires start.desk.processes == []
    ensures |WorldAfter(shop, start, log).desk.tickets| <=
            |start.desk.tickets| + TicketsStarted(log) + OthersStarted(shop, |log|)
  {
    hide WorldAfter, Finished;
    DeskIsSingle(shop, start, log);
    FinishedBounded(WorldAfter(shop, start, log).desk.processes);
  }

  /** Every call that has had its turn was decided by the rules, and what it opened is on file. */
  ghost predicate Filed(customers: set<string>, orders: Orders, d: Desk) {
    forall k | 0 <= k < |d.processes| && d.processes[k].outcome.Some? ::
      var p := d.processes[k];
      && Ruled(customers, orders, p.request, p.code, p.outcome.value)
      && (p.outcome.value.Opened? ==> p.outcome.value.ticket in d.tickets)
  }

  lemma {:induction false} TurnsKeepFiled(customers: set<string>, orders: Orders, d: Desk, turns: seq<nat>)
    requires Filed(customers, orders, d)
    ensures var e := TicketTurns(customers, orders, d, turns);
            && Filed(customers, orders, e) && d.tickets <= e.tickets && |e.processes| == |d.processes|
            && forall k | 0 <= k < |d.processes| ::
                 e.processes[k] == d.processes[k].(outcome := e.processes[k].outcome)
  {
    hide OpenTicket, Ruled;
    if turns != [] {
      TurnsKeepFiled(customers, orders, d, turns[..|turns| - 1]);
      var e, i := TicketTurns(customers, orders, d, turns[..|turns| - 1]), turns[|turns| - 1];
      if i < |e.processes| {
        TicketsByTheRules(customers, orders, e.processes[i].request, e.processes[i].code);
      }
    }
  }

  lemma MovedKeepsFiled(shop: Shop, w: World, i: nat, refunds: seq<Process>, tickets: seq<TicketProcess>)
    requires Filed(shop.customers, w.refunds.orders, w.desk) && Grounded(w.refunds)
    ensures var v := Arrived(shop, w, i, refunds, tickets);
            var d := Moved(shop, v, i).desk;
            && Filed(shop.customers, w.refunds.orders, d) && w.desk.tickets <= d.tickets
            && |d.processes| == |v.desk.processes|
            && forall k | 0 <= k < |d.processes| ::
                 d.processes[k] == v.desk.processes[k].(outcome := d.processes[k].outcome)
  {
    hide RefundRaces.Run, TicketTurns, Ruled, Grounded;
    var v := Arrived(shop, w, i, refunds, tickets);
    assert Filed(shop.customers, v.refunds.orders, v.desk);
    TurnsKeepFiled(shop.customers, v.refunds.orders, v.desk, shop.ticketTurns(i));
    MovedIsGrounded(shop, w, i, refunds, tickets);
  }

  /** So it is after any attempts, and no ticket is ever lost. */
  lemma {:induction false} DeskIsFiled(shop: Shop, start: World, log: seq<Attempt>, n: nat)
    requires Grounded(start.refunds) && start.desk.processes == [] && n <= |log|
    ensures Filed(shop.customers, start.refunds.orders, WorldAfter(shop, start, log).desk)
    ensures WorldAfter(shop, start, log[..n]).desk.tickets <= WorldAfter(shop, start, log).desk.tickets
  {
    hide Moved, Arrived, Filed, Grounded;
    if log == [] {
      assert log[..n] == log;
      NothingFiled(shop, start);
    } else {
      var i := |log| - 1;
      var w := WorldAfter(shop, start, log[..i]);
      WorldIsGrounded(shop, start, log[..i]);
      OrdersStay(shop, start, log[..i]);
      DeskIsFiled(shop, start, log[..i], if n < |log| then n else i);
      match log[i] {
        case Asked(_, _) => MovedKeepsFiled(shop, w, i, [], []);
        case Tried(call, _) =>
          MovedKeepsFiled(shop, w, i, RefundCalls(shop, i, call.name, call.arguments),
                          TicketCalls(shop, i, call.name, call.arguments));
      }
      if n < |log| {
        assert log[..i][..n] == log[..n];
      } else {
        assert log[..n] == log;
      }
    }
  }

  lemma NothingFiled(shop: Shop, start: World)
    requires start.desk.processes == []
    ensures Filed(shop.customers, start.refunds.orders, start.desk)
  {
  }

  /** The answer to a ticket call that opened one. */
  ghost predicate ReportsTicket(result: Fields, t: Ticket) {
    result ==
      [Field("ok", Bool(true)),
       Field("data", Obj([Field("code", Str(t.code)), Field("customer_code", Str(t.customerCode)),
                          Field("order_code", if t.orderCode == None then Null else Str(t.orderCode.value)),
                          Field("status", Str("open")), Field("priority", Str(t.priority))]))]
  }

  /** A ticket call that is answered with success opened its ticket by the rules. */
  lemma AnsweredTicket(shop: Shop, w: World, i: nat, arguments: Json) returns (r: TicketRequest, t: Ticket)
    requires Grounded(w.refunds) && Filed(shop.customers, w.refunds.orders, w.desk)
    requires var answer := AnswerOf(shop, Attempted(shop, w, i, "create_support_ticket", arguments),
                                    "create_support_ticket", arguments);
             answer.Some? && Ok(answer.value)
    ensures shop.parseTicket(arguments) == Some(r)
    ensures var v := Attempted(shop, w, i, "create_support_ticket", arguments);
            && AnswerOf(shop, v, "create_support_ticket", arguments).Some?
            && ReportsTicket(AnswerOf(shop, v, "create_support_ticket", arguments).value, t)
            && t in v.desk.tickets && Ruled(shop.customers, w.refunds.orders, r, shop.codes(i), Opened(t))
  {
    hide Moved, Ok, Invalid, Ruled, Joined, Grounded, Filed;
    NamesDiffer();
    InvalidIsNotOk(shop.errors(arguments));
    r := shop.parseTicket(arguments).value;
    var calls := TicketCalls(shop, i, "create_support_ticket", arguments);
    assert calls == [TicketProcess(r, shop.codes(i), None)];
    var before := Arrived(shop, w, i, RefundCalls(shop, i, "create_support_ticket", arguments), calls);
    MovedKeepsFiled(shop, w, i, RefundCalls(shop, i, "create_support_ticket", arguments), calls);
    var d := Moved(shop, before, i).desk;
    var last := |d.processes| - 1;
    assert before.desk.processes[last] == calls[0];
    FiledLast(shop.customers, w.refunds.orders, d);
    t := OpenedIfOk(d.processes[last].outcome.value);
    RuledIsOpen(shop.customers, w.refunds.orders, r, shop.codes(i), t);
  }

  lemma NamesDiffer()
    ensures "create_support_ticket" != "create_refund"
  {
    assert |"create_support_ticket"| != |"create_refund"|;
  }

  lemma FiledLast(customers: set<string>, orders: Orders, d: Desk)
    requires Filed(customers, orders, d) && d.processes != [] && d.processes[|d.processes| - 1].outcome.Some?
    ensures var p := d.processes[|d.processes| - 1];
            && Ruled(customers, orders, p.request, p.code, p.outcome.value)
            && (p.outcome.value.Opened? ==> p.outcome.value.ticket in d.tickets)
  {
  }

  lemma OpenedIfOk(o: TicketOutcome) returns (t: Ticket)
    requires Ok(TicketResult(o)) && (o.Rejected? ==> o.error.Failed?)
    ensures o == Opened(t)
  {
    if o.Rejected? {
      SuccessOnlyWhenReturned(o.error);
    }
    t := o.ticket;
  }

  lemma RuledIsOpen(customers: set<string>, orders: Orders, r: TicketRequest, code: string, t: Ticket)
    requires Ruled(customers, orders, r, code, Opened(t))
    ensures ReportsTicket(TicketResult(Opened(t)), t)
  {
  }

  /** A `create_support_ticket` call that ends ok leaves its ticket on file for good: open, for a
      known customer and an order of that customer, saying what was asked for. */
  lemma TicketsAreOnFile(env: Env, shop: Shop, start: World, i: nat) returns (r: TicketRequest, t: Ticket, code: string)
    requires Attached(env, shop, start) && i < |AgentLoop.Run(env).agent.events|
    requires var e := AgentLoop.Run(env).agent.events[i]; e.call.name == "create_support_ticket" && Ok(e.result)
    ensures shop.parseTicket(AgentLoop.Run(env).agent.events[i].call.arguments) == Some(r)
    ensures ReportsTicket(AgentLoop.Run(env).agent.events[i].result, t)
    ensures Ruled(shop.customers, start.refunds.orders, r, code, Opened(t))
    ensures t in WorldAfter(shop, start, AgentLoop.Run(env).agent.log).desk.tickets
  {
    hide AgentLoop.Run, Grounded, Attempted, Reply, AnswerOf, WorldAfter, Ok, Config.Valid, Ruled, ReportsTicket, Filed;
    var log, e := AgentLoop.Run(env).agent.log, AgentLoop.Run(env).agent.events[i];
    var k := WitnessOf(env, i);
    OkWasDelivered(shop, start, log[..k], e.call.name, e.call.arguments);
    WorldIsGrounded(shop, start, log[..k]);
    OrdersStay(shop, start, log[..k]);
    DeskIsFiled(shop, start, log[..k], 0);
    code := shop.codes(k);
    r, t := AnsweredTicket(shop, WorldAfter(shop, start, log[..k]), k, e.call.arguments);
    assert log[..k + 1][..k] == log[..k] && log[..k + 1][k] == log[k];
    WorldNext(shop, start, log[..k + 1]);
    DeskIsFiled(shop, start, log, k + 1);
    TicketStays(WorldAfter(shop, start, log[..k + 1]).desk.tickets, WorldAfter(shop, start, log).desk.tickets, t);
  }

  lemma TicketStays(tickets: seq<Ticket>, more: seq<Ticket>, t: Ticket)
    requires tickets <= more && t in tickets
    ensures t in more
  {
    var i :| 0 <= i < |tickets| && tickets[i] == t;
    assert more[i] == t;
  }

  /** The attempt an event reports, answered by the tools. */
  lemma WitnessOf(env: Env, i: nat) returns (k: nat)
    requires env.config.Valid() && i < |AgentLoop.Run(env).agent.events|
    ensures var log, e := AgentLoop.Run(env).agent.log, AgentLoop.Run(env).agent.events[i];
            && k < |log| && log[k].Tried? && log[k].call == e.call
            && ResultOf(e.call.name, env.tools(log[..k], e.call.name, e.call.arguments)) == e.result
  {
    hide AgentLoop.Run, Config.Valid, Truthful, NearlyEchoed, Accounted, Tally, Transcript, Waited, ResultOf;
    RunIsClosed(env);
    var a := AgentLoop.Run(env).agent;
    assert HasWitness(a.log, a.events[i]);
    k :| WitnessAt(a.log, a.events[i], k);
    assert Genuine(env, a.log, k);
  }

  /** A ticket call is attempted once. */
  lemma TicketsAreNotRetried(env: Env, i: nat)
    requires env.config.Valid() && i < |AgentLoop.Run(env).agent.events|
    requires AgentLoop.Run(env).agent.events[i].call.name == "create_support_ticket"
    ensures AgentLoop.Run(env).agent.events[i].attempts == 1
  {
    hide AgentLoop.Run, Config.Valid, Truthful, NearlyEchoed, Logged, Tally, RetryIsSafe, Witnessed;
    RunIsClosed(env);
    var e := AgentLoop.Run(env).agent.events[i];
    assert Guarded(env.config, e);
    CurrentEffectsAreGuarded(env.config, e.call.arguments);
  }
}
