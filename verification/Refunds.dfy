/** The refund and ticket service on its own: what each request does to the store. */
module Refunds {
  import opened Options
  import opened Json
  import JsonFaithful
  import Keys

  const MINIMUM_DELAY_DAYS := 7

  /** 1000.00, in cents. */
  const APPROVAL_THRESHOLD := 100000

  /** Amounts are whole cents. */
  datatype RefundRequest = RefundRequest(orderCode: string, amount: nat, reason: string)

  datatype Order = Order(customerCode: string, amount: nat, currency: string, delayedDays: Option<int>)

  datatype Refund = Refund(code: string, orderCode: string, amount: nat, currency: string, reason: string,
                           status: string, key: string, fingerprint: string)

  datatype Outcome = Returned(refund: Refund, created: bool) | Failed(status: nat, detail: string)

  type Orders = map<string, Order>

  // ---------------------------------------------------------------------
  // The request fingerprint

  function Cents(n: nat): string {
    Decimal(n / 100) + ['.', Digit(n / 10 % 10), Digit(n % 10)]
  }

  /** `_fingerprint`, before hashing. */
  function Fingerprint(r: RefundRequest): string {
    Dumps(Canonical(r), true)
  }

  function Canonical(r: RefundRequest): Json {
    Obj(Parts(Str(r.orderCode), Str(Cents(r.amount)), Str(r.reason)))
  }

  function Parts(order: Json, amount: Json, reason: Json): Fields {
    [Field("order_code", order), Field("amount", amount), Field("reason", reason)]
  }

  lemma SameParts(a0: Json, a1: Json, a2: Json, b0: Json, b1: Json, b2: Json)
    ensures DistinctKeys(Parts(a0, a1, a2))
    ensures Same(Obj(Parts(a0, a1, a2)), Obj(Parts(b0, b1, b2))) <==> Same(a0, b0) && Same(a1, b1) && Same(a2, b2)
  {
    var fs, gs := Parts(a0, a1, a2), Parts(b0, b1, b2);
    Keys.AlignedObjects(fs, gs);
    assert fs[0].value == a0 && gs[0].value == b0 && fs[1].value == a1 && gs[1].value == b1;
    assert fs[2].value == a2 && gs[2].value == b2;
  }

  lemma SameCanonical(a: RefundRequest, b: RefundRequest)
    ensures WellFormed(Canonical(a))
    ensures Same(Canonical(a), Canonical(b)) <==>
            a.orderCode == b.orderCode && Cents(a.amount) == Cents(b.amount) && a.reason == b.reason
  {
    hide Cents;
    SameParts(Str(a.orderCode), Str(Cents(a.amount)), Str(a.reason), Str(b.orderCode), Str(Cents(b.amount)),
      Str(b.reason));
    assert forall f | f in Canonical(a).fields :: WellFormed(f.value);
  }

  lemma CentsInjective(m: nat, n: nat)
    requires Cents(m) == Cents(n)
    ensures m == n
  {
    var s, t, d, e := Cents(m), Cents(n), Decimal(m / 100), Decimal(n / 100);
    assert |s| == |d| + 3 && |t| == |e| + 3;
    assert s[..|d|] == d && t[..|e|] == e;
    JsonFaithful.DecimalInjective(m / 100, n / 100);
    JsonFaithful.DigitInjective(m / 10 % 10, n / 10 % 10);
    JsonFaithful.DigitInjective(m % 10, n % 10);
    assert s[|d| + 1] == Digit(m / 10 % 10) && s[|d| + 2] == Digit(m % 10);
    assert t[|e| + 1] == Digit(n / 10 % 10) && t[|e| + 2] == Digit(n % 10);
    FromDigits(m);
    FromDigits(n);
  }

  lemma TenTimesTen(n: nat)
    ensures n / 10 / 10 == n / 100
  {
  }

  lemma FromDigits(n: nat)
    ensures n == 100 * (n / 100) + 10 * (n / 10 % 10) + n % 10
  {
    var m := n / 10;
    assert n == 10 * m + n % 10 && m == 10 * (m / 10) + m % 10;
    assert m / 10 == n / 100 by { TenTimesTen(n); }
  }

  /** Two requests share a fingerprint exactly when they are the same request. */
  lemma FingerprintFaithful(a: RefundRequest, b: RefundRequest)
    ensures Fingerprint(a) == Fingerprint(b) <==> a == b
  {
    hide Cents, Dumps, Canonical, Same;
    SameCanonical(a, b);
    SameCanonical(b, a);
    JsonFaithful.DumpsFaithful(Canonical(a), Canonical(b), true);
    if Fingerprint(a) == Fingerprint(b) {
      CentsInjective(a.amount, b.amount);
    }
  }

  // ---------------------------------------------------------------------
  // The store

  /** The row with this idempotency key. */
  function ByKey(rows: seq<Refund>, key: string): (r: Option<Refund>)
    ensures r.Some? ==> r.value in rows && r.value.key == key
    ensures r.None? ==> forall x | x in rows :: x.key != key
  {
    if rows == [] then None
    else if rows[0].key == key then Some(rows[0])
    else ByKey(rows[1..], key)
  }

  predicate Refunded(rows: seq<Refund>, orderCode: string) {
    exists x | x in rows :: x.orderCode == orderCode
  }

  /** The order exists, its amount covers this one, and its shipment is at least a week late. */
  ghost predicate Passed(orders: Orders, r: RefundRequest) {
    r.orderCode in orders && r.amount <= orders[r.orderCode].amount
    && orders[r.orderCode].delayedDays.Some? && orders[r.orderCode].delayedDays.value >= 7
  }

  ghost function RequestOf(x: Refund): RefundRequest {
    RefundRequest(x.orderCode, x.amount, x.reason)
  }

  /** A row the service could have written: its request passes the checks, its currency is the
      order's, and it waits for a human exactly when it is of more than 1000.00. */
  ghost predicate Justified(orders: Orders, x: Refund) {
    && Passed(orders, RequestOf(x))
    && x.currency == orders[x.orderCode].currency
    && x.status == (if x.amount > 100000 then "pending_human_approval" else "approved")
    && x.fingerprint == Fingerprint(RequestOf(x))
  }

  /** The two unique columns, and every row justified: each order has at most one refund. */
  ghost predicate StoreValid(orders: Orders, rows: seq<Refund>) {
    && (forall i, j | 0 <= i < j < |rows| :: rows[i].key != rows[j].key && rows[i].orderCode != rows[j].orderCode)
    && (forall x | x in rows :: Justified(orders, x))
  }

  predicate Eligible(order: Order, amount: nat) {
    amount <= order.amount && order.delayedDays.Some? && order.delayedDays.value >= MINIMUM_DELAY_DAYS
  }

  function RefundFor(orders: Orders, r: RefundRequest, key: string, code: string): Refund
    requires r.orderCode in orders
  {
    Refund(code, r.orderCode, r.amount, orders[r.orderCode].currency, r.reason,
           if r.amount > APPROVAL_THRESHOLD then "pending_human_approval" else "approved", key, Fingerprint(r))
  }

  const DIFFERENT_REQUEST := Failed(409, "Idempotency key was already used for a different request")
  const ALREADY_REFUNDED := Failed(409, "Order has already been refunded")
  const CONFLICT := Failed(409, "Refund conflicts with an existing refund")
  const TOO_MUCH := Failed(422, "Refund amount cannot exceed order amount")
  const TOO_EARLY := Failed(422, "Order is not eligible: shipment delay must be at least 7 days")

  function NotFound(kind: string, code: string): Outcome {
    Failed(404, kind + " " + code + " not found")
  }

  /** What a row found under the request's key means. */
  function Replayed(found: Refund, r: RefundRequest): Outcome {
    if found.fingerprint != Fingerprint(r) then DIFFERENT_REQUEST else Returned(found, false)
  }

  /** The checks between the order's lookup and the insert; None when they pass. */
  function Objection(orders: Orders, rows: seq<Refund>, r: RefundRequest): (o: Option<Outcome>)
    ensures o.None? ==> r.orderCode in orders && Passed(orders, r)
  {
    if r.orderCode !in orders then Some(NotFound("Order", r.orderCode))
    else if Refunded(rows, r.orderCode) then Some(ALREADY_REFUNDED)
    else if r.amount > orders[r.orderCode].amount then Some(TOO_MUCH)
    else if !Eligible(orders[r.orderCode], r.amount) then Some(TOO_EARLY)
    else None
  }

  /** `create_refund` with nobody else at work: its outcome. */
  function Serve(orders: Orders, rows: seq<Refund>, r: RefundRequest, key: string, code: string): Outcome {
    match ByKey(rows, key)
    case Some(found) => Replayed(found, r)
    case None =>
      match Objection(orders, rows, r)
      case Some(error) => error
      case None => Returned(RefundFor(orders, r, key, code), true)
  }

  /** And the rows after it. */
  function Served(orders: Orders, rows: seq<Refund>, r: RefundRequest, key: string, code: string): seq<Refund> {
    var o := Serve(orders, rows, r, key, code);
    if o.Returned? && o.created then rows + [o.refund] else rows
  }

  lemma RefundForIsJustified(orders: Orders, r: RefundRequest, key: string, code: string)
    requires r.orderCode in orders && Passed(orders, r)
    ensures Justified(orders, RefundFor(orders, r, key, code))
  {
    hide Fingerprint;
  }

  lemma InsertKeepsStore(orders: Orders, rows: seq<Refund>, x: Refund)
    requires StoreValid(orders, rows) && Justified(orders, x) && ByKey(rows, x.key).None?
    requires !Refunded(rows, x.orderCode)
    ensures StoreValid(orders, rows + [x])
  {
    hide Justified, ByKey;
    KeyIsNew(rows, x.key);
  }

  lemma KeyIsNew(rows: seq<Refund>, key: string)
    requires ByKey(rows, key).None?
    ensures forall i | 0 <= i < |rows| :: rows[i].key != key
  {
  }

  lemma ServedKeepsStore(orders: Orders, rows: seq<Refund>, r: RefundRequest, key: string, code: string)
    requires StoreValid(orders, rows)
    ensures StoreValid(orders, Served(orders, rows, r, key, code)) && rows <= Served(orders, rows, r, key, code)
  {
    hide Fingerprint, StoreValid, Justified, Eligible;
    if ByKey(rows, key).None? && Objection(orders, rows, r).None? {
      RefundForIsJustified(orders, r, key, code);
      InsertKeepsStore(orders, rows, RefundFor(orders, r, key, code));
    }
  }

  /** The rules of the service, request by request. A key in use decides alone: the same request
      gets its refund again, another one is refused. Under a free key the order must exist, not be
      refunded, cover the amount and be late enough; then a refund is made of the request. */
  lemma ServeByTheRules(orders: Orders, rows: seq<Refund>, r: RefundRequest, key: string, code: string)
    requires StoreValid(orders, rows)
    ensures var o := Serve(orders, rows, r, key, code);
            forall x | x in rows && x.key == key ::
              o == if RequestOf(x) == r then Returned(x, false)
                   else Failed(409, "Idempotency key was already used for a different request")
    ensures var o := Serve(orders, rows, r, key, code);
            (forall x | x in rows :: x.key != key) ==>
              if r.orderCode !in orders then o == Failed(404, "Order " + r.orderCode + " not found")
              else if exists x :: x in rows && x.orderCode == r.orderCode then
                o == Failed(409, "Order has already been refunded")
              else if r.amount > orders[r.orderCode].amount then
                o == Failed(422, "Refund amount cannot exceed order amount")
              else if !Passed(orders, r) then
                o == Failed(422, "Order is not eligible: shipment delay must be at least 7 days")
              else
                && o.Returned? && o.created && Justified(orders, o.refund) && RequestOf(o.refund) == r
                && o.refund.key == key && o.refund.code == code
  {
    hide Fingerprint;
    forall x | x in rows && x.key == key ensures ByKey(rows, key) == Some(x) {
      OnlyRow(orders, rows, x);
    }
    forall x | x in rows && x.key == key
      ensures x.fingerprint == Fingerprint(r) <==> RequestOf(x) == r
    {
      assert Justified(orders, x);
      FingerprintFaithful(RequestOf(x), r);
    }
  }

  /** A served request whose outcome is a refund finds it in the store under its own key, with
      its own request in it, and as its order's only refund. */
  lemma ServedIsStored(orders: Orders, rows: seq<Refund>, r: RefundRequest, key: string, code: string)
    requires StoreValid(orders, rows) && Serve(orders, rows, r, key, code).Returned?
    ensures var x, after := Serve(orders, rows, r, key, code).refund, Served(orders, rows, r, key, code);
            && x in after && x.key == key && RequestOf(x) == r && Justified(orders, x)
            && (forall y | y in after && (y.key == key || y.orderCode == r.orderCode) :: y == x)
  {
    hide Fingerprint, Eligible;
    var x, after := Serve(orders, rows, r, key, code).refund, Served(orders, rows, r, key, code);
    ServedKeepsStore(orders, rows, r, key, code);
    if ByKey(rows, key).Some? {
      FingerprintFaithful(RequestOf(x), r);
    } else {
      assert after[|rows|] == x;
    }
    OnlyRow(orders, after, x);
  }

  /** A row is the only one with its key and the only one of its order. */
  lemma OnlyRow(orders: Orders, rows: seq<Refund>, x: Refund)
    requires StoreValid(orders, rows) && x in rows
    ensures forall y | y in rows && (y.key == x.key || y.orderCode == x.orderCode) :: y == x
  {
    hide Justified;
  }
}
