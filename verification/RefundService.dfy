/** The service's operations as they run, on tables that they change. */
module RefundService {
  import opened Options
  import opened Refunds
  import opened RefundRaces

  datatype TicketRequest = TicketRequest(customerCode: string, orderCode: string, subject: string,
                                         description: string, priority: string)

  datatype Ticket = Ticket(code: string, customerCode: string, orderCode: Option<string>, subject: string,
                           description: string, priority: string, status: string)

  datatype TicketOutcome = Opened(ticket: Ticket) | Rejected(error: Outcome)

  const WRONG_CUSTOMER := Failed(422, "Order does not belong to the specified customer")

  /** `create_ticket`: no order is looked up for an empty code. */
  function OpenTicket(customers: set<string>, orders: Orders, r: TicketRequest, code: string): TicketOutcome {
    if r.customerCode !in customers then Rejected(NotFound("Customer", r.customerCode))
    else if r.orderCode == "" then Opened(TicketFor(r, None, code))
    else if r.orderCode !in orders then Rejected(NotFound("Order", r.orderCode))
    else if orders[r.orderCode].customerCode != r.customerCode then Rejected(WRONG_CUSTOMER)
    else Opened(TicketFor(r, Some(r.orderCode), code))
  }

  function TicketFor(r: TicketRequest, order: Option<string>, code: string): Ticket {
    Ticket(code, r.customerCode, order, r.subject, r.description, r.priority, "open")
  }

  /** The rules for tickets: the customer must be known, and the order, if one is named, known and
      the customer's own. The ticket is open and says what was asked for. */
  ghost predicate Ruled(customers: set<string>, orders: Orders, r: TicketRequest, code: string, o: TicketOutcome) {
    if r.customerCode !in customers then o == Rejected(Failed(404, "Customer " + r.customerCode + " not found"))
    else if r.orderCode != "" && r.orderCode !in orders then
      o == Rejected(Failed(404, "Order " + r.orderCode + " not found"))
    else if r.orderCode != "" && orders[r.orderCode].customerCode != r.customerCode then
      o == Rejected(Failed(422, "Order does not belong to the specified customer"))
    else
      && o.Opened? && o.ticket.code == code && o.ticket.status == "open"
      && o.ticket.customerCode == r.customerCode
      && o.ticket.orderCode == (if r.orderCode == "" then None else Some(r.orderCode))
      && o.ticket.subject == r.subject && o.ticket.description == r.description && o.ticket.priority == r.priority
  }

  lemma TicketsByTheRules(customers: set<string>, orders: Orders, r: TicketRequest, code: string)
    ensures Ruled(customers, orders, r, code, OpenTicket(customers, orders, r, code))
  {
    assert "Customer" + " " == "Customer " && "Order" + " " == "Order ";
  }

  class Database {
    const orders: Orders
    const customers: set<string>
    var refunds: seq<Refund>
    var tickets: seq<Ticket>

    constructor (orders: Orders, customers: set<string>)
      ensures this.orders == orders && this.customers == customers && refunds == [] && tickets == []
    {
      this.orders, this.customers, refunds, tickets := orders, customers, [], [];
    }

    /** `create_ticket`. */
    method CreateTicket(r: TicketRequest, code: string) returns (outcome: TicketOutcome)
      modifies this`tickets
      ensures outcome == OpenTicket(customers, orders, r, code)
      ensures tickets == if outcome.Opened? then old(tickets) + [outcome.ticket] else old(tickets)
    {
      if r.customerCode !in customers {
        return Rejected(NotFound("Customer", r.customerCode));
      }
      var order := None;
      if r.orderCode != "" {
        if r.orderCode !in orders {
          return Rejected(NotFound("Order", r.orderCode));
        }
        order := Some(r.orderCode);
      }
      if order.Some? && orders[order.value].customerCode != r.customerCode {
        return Rejected(WRONG_CUSTOMER);
      }
      var ticket := TicketFor(r, order, code);
      tickets := tickets + [ticket];
      return Opened(ticket);
    }

    /** The lookup by idempotency key. */
    method FindRefund(key: string) returns (found: Option<Refund>)
      ensures found == ByKey(refunds, key)
    {
      for i := 0 to |refunds|
        invariant ByKey(refunds, key) == ByKey(refunds[i..], key)
      {
        assert refunds[i..][0] == refunds[i] && refunds[i..][1..] == refunds[i + 1..];
        if refunds[i].key == key {
          return Some(refunds[i]);
        }
      }
      return None;
    }

    /** The insert and its commit: whether the unique columns allow it. */
    method CommitRefund(x: Refund) returns (ok: bool)
      modifies this`refunds
      ensures ok <==> !Clashes(old(refunds), x)
      ensures refunds == if ok then old(refunds) + [x] else old(refunds)
    {
      if Clashes(refunds, x) {
        return false;
      }
      refunds := refunds + [x];
      return true;
    }
  }

  /** One call of `create_refund`, able to stop after each of its database operations. */
  class RefundSession {
    const db: Database
    const request: RefundRequest
    const key: string
    const code: string
    var phase: Phase

    ghost function Contents(): Process
      reads this
    {
      Process(request, key, code, phase)
    }

    constructor (db: Database, request: RefundRequest, key: string, code: string)
      ensures this.db == db && Contents() == Process(request, key, code, Begin)
    {
      this.db, this.request, this.key, this.code, phase := db, request, key, code, Begin;
    }

    method LookUpKey()
      requires phase == Begin
      modifies this
      ensures var t := Step(false, Solo(db.orders, db.refunds, old(Contents())), 0);
              Contents() == t.processes[0] && db.refunds == t.rows
    {
      var found := db.FindRefund(key);
      if found.Some? {
        var same := found.value.fingerprint == Fingerprint(request);
        phase := Done(if same then Returned(found.value, false) else DIFFERENT_REQUEST);
      } else {
        phase := KeyAbsent;
      }
    }

    method LookUpOrder()
      requires phase == KeyAbsent
      modifies this
      ensures var t := Step(false, Solo(db.orders, db.refunds, old(Contents())), 0);
              Contents() == t.processes[0] && db.refunds == t.rows
    {
      hide ByKey, Fingerprint;
      if request.orderCode !in db.orders {
        phase := Done(NotFound("Order", request.orderCode));
        return;
      }
      var order := db.orders[request.orderCode];
      if Refunded(db.refunds, request.orderCode) {
        phase := Done(ALREADY_REFUNDED);
      } else if request.amount > order.amount {
        phase := Done(TOO_MUCH);
      } else if order.delayedDays.None? || order.delayedDays.value < MINIMUM_DELAY_DAYS {
        phase := Done(TOO_EARLY);
      } else {
        phase := Committing(RefundFor(db.orders, request, key, code));
      }
    }

    method Commit()
      requires phase.Committing?
      modifies this, db`refunds
      ensures var t := Step(false, Solo(db.orders, old(db.refunds), old(Contents())), 0);
              Contents() == t.processes[0] && db.refunds == t.rows
    {
      hide Clashes;
      var refund := phase.refund;
      var ok := db.CommitRefund(refund);
      phase := if ok then Done(Returned(refund, true)) else Conflicted;
    }

    method Recover()
      requires phase == Conflicted
      modifies this
      ensures var t := Step(false, Solo(db.orders, db.refunds, old(Contents())), 0);
              Contents() == t.processes[0] && db.refunds == t.rows
    {
      var found := db.FindRefund(key);
      var same := found.Some? && found.value.fingerprint == Fingerprint(request);
      phase := Done(if same then Returned(found.value, false) else CONFLICT);
    }

    /** The next database operation of the call. */
    method Advance()
      modifies this, db`refunds
      ensures var t := Step(false, Solo(db.orders, old(db.refunds), old(Contents())), 0);
              Contents() == t.processes[0] && db.refunds == t.rows
    {
      hide Validate, Replayed, Recovered, Clashes, ByKey;
      match phase {
        case Begin => LookUpKey();
        case KeyAbsent => LookUpOrder();
        case Committing(_) => Commit();
        case Conflicted => Recover();
        case Done(_) =>
      }
    }
  }

  /** `create_refund`, uninterrupted. */
  method CreateRefund(db: Database, request: RefundRequest, key: string, code: string) returns (outcome: Outcome)
    modifies db`refunds
    ensures outcome == Serve(db.orders, old(db.refunds), request, key, code)
    ensures db.refunds == Served(db.orders, old(db.refunds), request, key, code)
  {
    var session := new RefundSession(db, request, key, code);
    session.LookUpKey();
    if session.phase == KeyAbsent {
      session.LookUpOrder();
      if session.phase.Committing? {
        session.Commit();
      }
    }
    return session.phase.outcome;
  }

  /** Calls side by side: `schedule` says whose turn it is. */
  method Interleave(db: Database, sessions: seq<RefundSession>, schedule: seq<nat>, ghost start: System)
    requires forall i, j | 0 <= i < j < |sessions| :: sessions[i] != sessions[j]
    requires forall i | 0 <= i < |sessions| :: sessions[i].db == db
    requires start.orders == db.orders && start.rows == db.refunds && |start.processes| == |sessions|
    requires forall i | 0 <= i < |sessions| :: sessions[i].Contents() == start.processes[i]
    requires forall k | 0 <= k < |schedule| :: schedule[k] < |sessions|
    modifies db`refunds, sessions
    ensures db.refunds == Run(false, start, schedule).rows
    ensures |Run(false, start, schedule).processes| == |sessions|
    ensures forall i | 0 <= i < |sessions| :: sessions[i].Contents() == Run(false, start, schedule).processes[i]
  {
    hide Step;
    for n := 0 to |schedule|
      invariant |Run(false, start, schedule[..n]).processes| == |sessions|
      invariant Run(false, start, schedule[..n]).orders == db.orders
      invariant db.refunds == Run(false, start, schedule[..n]).rows
      invariant forall i | 0 <= i < |sessions| ::
                sessions[i].Contents() == Run(false, start, schedule[..n]).processes[i]
    {
      ghost var s := Run(false, start, schedule[..n]);
      StepIsLocal(false, s, schedule[n]);
      assert schedule[..n + 1] == schedule[..n] + [schedule[n]];
      Unroll(false, start, schedule[..n], schedule[n]);
      sessions[schedule[n]].Advance();
    }
    assert schedule[..|schedule|] == schedule;
  }
}
