/** The filter between a signature-verified provider event and a settlement. */
module FeeWebhook {
  import opened Options
  import opened Numbers
  import opened FeeLedger
  import opened FeeAllocation
  import opened FeeInvariant
  import opened FeeService
  import FeeRuns

  datatype Json =
    JNull | JBool(truth: bool) | JNumber(value: real) | JString(text: string) | JArray(items: seq<Json>)
    | JObject(fields: map<string, Json>)

  /** `asObject`: arrays, null and scalars are not objects; an absent field is not one either. */
  function AsObject(value: Option<Json>): Option<map<string, Json>> {
    if value.Some? && value.value.JObject? then Some(value.value.fields) else None
  }

  function Field(record: Option<map<string, Json>>, name: string): Option<Json> {
    if record.Some? && name in record.value then Some(record.value[name]) else None
  }

  predicate IsAlphanumeric(c: char) { 'A' <= c <= 'Z' || 'a' <= c <= 'z' || '0' <= c <= '9' }

  predicate IsProviderId(prefix: string, s: string) {
    |prefix| < |s| && s[..|prefix|] == prefix && forall i :: |prefix| <= i < |s| ==> IsAlphanumeric(s[i])
  }

  function PositiveSafeInteger(value: Option<Json>): Option<int> {
    if value.Some? && value.value.JNumber? && value.value.value == value.value.value.Floor as real
       && 0 < value.value.value.Floor <= MAX_SAFE_INTEGER
    then Some(value.value.value.Floor) else None
  }

  function Text(value: Option<Json>): Option<string> {
    if value.Some? && value.value.JString? then Some(value.value.text) else None
  }

  datatype PaymentEntity = PaymentEntity(
    id: string, orderId: string, amountPaise: int, currency: string, status: Option<string>, notes: Option<map<string, Json>>)

  function ParsePayment(entity: Option<Json>): Option<PaymentEntity> {
    var p := AsObject(entity);
    var id, orderId, amount, currency :=
      Text(Field(p, "id")), Text(Field(p, "order_id")), PositiveSafeInteger(Field(p, "amount")), Text(Field(p, "currency"));
    if id.None? || !IsProviderId("pay_", id.value) || orderId.None? || !IsProviderId("order_", orderId.value)
       || amount.None? || currency.None?
    then None
    else Some(PaymentEntity(id.value, orderId.value, amount.value, currency.value,
                            Text(Field(p, "status")), AsObject(Field(p, "notes"))))
  }

  /** Only a populated object can contradict our order. */
  predicate NotesContradict(notes: Option<map<string, Json>>, feePaymentId: string) {
    notes.Some? && notes.value != map[]
    && (Field(notes, "kind") != Some(JString("shop_fee")) || Field(notes, "feePaymentId") != Some(JString(feePaymentId)))
  }

  datatype Verdict = NotHandled | Ignored | Failure(orderId: string) | Capture(input: SettleInput)

  /** Everything the handler checks before it touches a fee row; `idOf` names our order row in the notes. */
  function Judge(a: Account, payload: Json, idOf: nat -> string): Verdict {
    var body := AsObject(Some(payload));
    var event := Text(Field(body, "event"));
    if event.None? || event.value !in {"payment.captured", "order.paid", "payment.failed"} then NotHandled
    else
      var inner := AsObject(Field(body, "payload"));
      var payment := ParsePayment(Field(AsObject(Field(inner, "payment")), "entity"));
      if payment.None? then NotHandled
      else
        var p := payment.value;
        var found := FindOrder(a.payments, p.orderId);
        if found.None? then NotHandled
        else
          var orderEntity := AsObject(Field(AsObject(Field(inner, "order")), "entity"));
          if event.value == "order.paid" && (orderEntity.None? || Field(orderEntity, "id") != Some(JString(p.orderId))) then Ignored
          else
            var orderNotes := if event.value == "order.paid" then AsObject(Field(orderEntity, "notes")) else None;
            if NotesContradict(p.notes, idOf(found.value)) || NotesContradict(orderNotes, idOf(found.value)) then Ignored
            else if event.value == "payment.failed" then Failure(p.orderId)
            else if p.status.Some? && p.status != Some("captured") then Ignored
            else Capture(SettleInput(p.orderId, p.id, p.amountPaise, p.currency))
  }

  datatype WebhookResult = Unhandled | NoEffect | FailedMarked | Settlement(outcome: SettleOutcome)

  function Handle(a: Account, cfg: FeeConfig, payload: Json, idOf: nat -> string, now: int): (Account, WebhookResult) {
    match Judge(a, payload, idOf)
    case NotHandled => (a, Unhandled)
    case Ignored => (a, NoEffect)
    case Failure(orderId) =>
      var b := MarkFailed(a, orderId);
      (b, if b != a then FailedMarked else NoEffect)
    case Capture(input) =>
      var (b, outcome) := Settle(a, cfg, input, now);
      (b, Settlement(outcome))
  }

  /** `handleFeeWebhook`, on the tables in place. */
  method HandleFeeWebhook(t: FeeTables, payload: Json, idOf: nat -> string, now: int) returns (r: WebhookResult)
    modifies t
    ensures (t.Rows(), r) == Handle(old(t.Rows()), t.cfg, payload, idOf, now)
  {
    match Judge(t.Rows(), payload, idOf) {
      case NotHandled => r := Unhandled;
      case Ignored => r := NoEffect;
      case Failure(orderId) =>
        var marked := t.MarkFeeAttemptFailed(orderId);
        r := if marked then FailedMarked else NoEffect;
      case Capture(input) =>
        var outcome := t.SettleFeePayment(input, now);
        r := Settlement(outcome);
    }
  }

  /** Judging reads nothing of the account but which orders exist. */
  lemma JudgeReadsOrdersOnly(a: Account, b: Account, payload: Json, idOf: nat -> string)
    requires forall id: string {:trigger FindOrder(a.payments, id)} :: FindOrder(a.payments, id) == FindOrder(b.payments, id)
    ensures Judge(a, payload, idOf) == Judge(b, payload, idOf)
  {
  }

  lemma {:induction false} SameOrders(p: seq<FeePayment>, q: seq<FeePayment>, id: string)
    requires |p| == |q| && forall i :: 0 <= i < |p| ==> p[i].providerOrderId == q[i].providerOrderId
    ensures FindOrder(p, id) == FindOrder(q, id)
  {
    if p != [] { SameOrders(p[..|p| - 1], q[..|q| - 1], id); }
  }

  lemma HandleKeepsOrders(a: Account, cfg: FeeConfig, payload: Json, idOf: nat -> string, now: int)
    ensures var b := Handle(a, cfg, payload, idOf, now).0;
      |b.payments| == |a.payments|
      && forall i :: 0 <= i < |a.payments| ==> b.payments[i].providerOrderId == a.payments[i].providerOrderId
  {
    hide Judge, Allocate, UnpaidRows, HasOverdue, OverrideActive;
  }

  /**
   * Every payload keeps the invariant, and a delivered payload delivered again changes nothing,
   * whatever the provider's clock says.
   */
  lemma {:induction false} RedeliveryIsNoOp(a: Account, cfg: FeeConfig, payload: Json, idOf: nat -> string, now: int, later: int)
    requires Inv(a)
    ensures var b := Handle(a, cfg, payload, idOf, now).0;
      Inv(b) && Handle(b, cfg, payload, idOf, later).0 == b
  {
    hide Judge, Settle, Inv, MarkFailed;
    var b := Handle(a, cfg, payload, idOf, now).0;
    HandleKeepsOrdersFrom(a, cfg, payload, idOf, now);
    JudgeReadsOrdersOnly(a, b, payload, idOf);
    match Judge(a, payload, idOf) {
      case Failure(orderId) =>
        MarkKeepsInv(a, orderId, 0);
        MarkFailedTwice(a, orderId);
      case Capture(input) =>
        SettleKeepsInv(a, cfg, input, now);
        SettleTwice(a, cfg, input, now, later);
      case _ =>
    }
  }

  lemma HandleKeepsOrdersFrom(a: Account, cfg: FeeConfig, payload: Json, idOf: nat -> string, now: int)
    ensures var b := Handle(a, cfg, payload, idOf, now).0;
      forall id: string {:trigger FindOrder(a.payments, id)} :: FindOrder(a.payments, id) == FindOrder(b.payments, id)
  {
    var b := Handle(a, cfg, payload, idOf, now).0;
    HandleKeepsOrders(a, cfg, payload, idOf, now);
    forall id: string ensures FindOrder(a.payments, id) == FindOrder(b.payments, id) {
      SameOrders(a.payments, b.payments, id);
    }
  }

  lemma MarkFailedTwice(a: Account, orderId: string)
    ensures MarkFailed(MarkFailed(a, orderId), orderId) == MarkFailed(a, orderId)
  {
    var b := MarkFailed(a, orderId);
    var found := FindOrder(a.payments, orderId);
    SameOrders(a.payments, b.payments, orderId);
  }

  lemma SettleTwice(a: Account, cfg: FeeConfig, input: SettleInput, now: int, later: int)
    requires Inv(a)
    ensures Settle(Settle(a, cfg, input, now).0, cfg, input, later).0 == Settle(a, cfg, input, now).0
  {
    hide Inv, EvaluateBlock, Allocate, UnpaidRows;
    var b := Settle(a, cfg, input, now).0;
    if SettleDecision(a, input).SettledNow? {
      FeeRuns.RefusedSettlementChangesNothing(a, cfg, input, now);
      SettledOrderIsPaid(a, cfg, input, now);
      SettledOrders(a, cfg, input, now);
      SameOrders(a.payments, b.payments, input.providerOrderId);
    }
  }

  lemma SettledOrders(a: Account, cfg: FeeConfig, input: SettleInput, now: int)
    ensures var b := Settle(a, cfg, input, now).0;
      |b.payments| == |a.payments|
      && forall i :: 0 <= i < |a.payments| ==> b.payments[i].providerOrderId == a.payments[i].providerOrderId
  {
  }

  /** A failure and a capture of one order delivered in either order leave the same tables. */
  lemma FailureAndCaptureCommute(a: Account, cfg: FeeConfig, input: SettleInput, now: int)
    requires Inv(a) && SettleDecision(a, input).SettledNow?
    ensures Settle(MarkFailed(a, input.providerOrderId), cfg, input, now).0
         == MarkFailed(Settle(a, cfg, input, now).0, input.providerOrderId)
  {
    hide Inv, EvaluateBlock, Allocate, UnpaidRows;
    var orderId := input.providerOrderId;
    var m, b := MarkFailed(a, orderId), Settle(a, cfg, input, now).0;
    var id := FindOrder(a.payments, orderId).value;
    SameOrders(a.payments, m.payments, orderId);
    SettledOrders(a, cfg, input, now);
    SameOrders(a.payments, b.payments, orderId);
    SettledOrderIsPaid(a, cfg, input, now);
    assert !PaymentIdTaken(m.payments, input.providerPaymentId);
    var p, q := PostSettlement(m, id, input.providerPaymentId, now), PostSettlement(a, id, input.providerPaymentId, now);
    assert p.payments == q.payments;
    assert p == q;
  }

  // ---------- which deliveries count, on the payload itself ----------

  /** The value at a path of field names; None when a step is missing or not an object. */
  function Lookup(value: Option<Json>, path: seq<string>): Option<Json>
    decreases |path|
  {
    if path == [] || value.None? then value
    else if value.value.JObject? && path[0] in value.value.fields then Lookup(Some(value.value.fields[path[0]]), path[1..])
    else None
  }

  predicate IsText(payload: Json, path: seq<string>, text: string) { Lookup(Some(payload), path) == Some(JString(text)) }

  const PAYMENT := ["payload", "payment", "entity"]
  const ORDER := ["payload", "order", "entity"]

  /** Absent, not an object, empty, or naming this order row. */
  predicate NotesAllow(payload: Json, entity: seq<string>, rowId: string) {
    var notes := Lookup(Some(payload), entity + ["notes"]);
    notes.None? || !notes.value.JObject? || notes.value.fields == map[]
    || (IsText(payload, entity + ["notes", "kind"], "shop_fee") && IsText(payload, entity + ["notes", "feePaymentId"], rowId))
  }

  /** By code point: 0-9, A-Z, a-z. */
  predicate LetterOrDigit(code: int) { 48 <= code <= 57 || 65 <= code <= 90 || 97 <= code <= 122 }

  /** A prefix followed by at least one letter or digit and nothing else. */
  ghost predicate PrefixedId(prefix: string, s: string) {
    exists rest: string :: s == prefix + rest && rest != [] && forall i :: 0 <= i < |rest| ==> LetterOrDigit(rest[i] as int)
  }

  ghost predicate WellFormedPayment(payload: Json, orderId: string, paymentId: string, amountPaise: int, currency: string) {
    IsText(payload, PAYMENT + ["order_id"], orderId) && PrefixedId("order_", orderId)
    && IsText(payload, PAYMENT + ["id"], paymentId) && PrefixedId("pay_", paymentId)
    && Lookup(Some(payload), PAYMENT + ["amount"]) == Some(JNumber(amountPaise as real)) && 0 < amountPaise <= MAX_SAFE_INTEGER
    && IsText(payload, PAYMENT + ["currency"], currency)
  }

  /** The delivery is about this order row: right entities, and no note that names another. */
  predicate Concerns(payload: Json, orderId: string, rowId: string) {
    (IsText(payload, ["event"], "order.paid") ==> IsText(payload, ORDER + ["id"], orderId) && NotesAllow(payload, ORDER, rowId))
    && NotesAllow(payload, PAYMENT, rowId)
  }

  predicate IsCaptureEvent(payload: Json) {
    (IsText(payload, ["event"], "payment.captured") || IsText(payload, ["event"], "order.paid"))
    && var status := Lookup(Some(payload), PAYMENT + ["status"]);
       status.Some? && status.value.JString? ==> status.value.text == "captured"
  }

  /** A capture of exactly this unpaid order, by a payment no order has yet. */
  ghost predicate PaysOrder(a: Account, payload: Json, i: nat, rowId: string, paymentId: string) {
    i < |a.payments| && !a.payments[i].status.Paid? && !PaymentIdTaken(a.payments, paymentId)
    && WellFormedPayment(payload, a.payments[i].providerOrderId, paymentId, a.payments[i].amountPaise, a.payments[i].currency)
    && IsCaptureEvent(payload) && Concerns(payload, a.payments[i].providerOrderId, rowId)
  }

  /** A failed attempt on this order, of whatever amount and currency, while it is still created or attempted. */
  ghost predicate FailsOrder(a: Account, payload: Json, i: nat, rowId: string, paymentId: string, amountPaise: int, currency: string) {
    i < |a.payments| && a.payments[i].status in {Created, Attempted}
    && IsText(payload, ["event"], "payment.failed")
    && WellFormedPayment(payload, a.payments[i].providerOrderId, paymentId, amountPaise, currency)
    && Concerns(payload, a.payments[i].providerOrderId, rowId)
  }

  lemma PrefixedIdIs(prefix: string, s: string)
    ensures PrefixedId(prefix, s) <==> IsProviderId(prefix, s)
  {
    if IsProviderId(prefix, s) {
      assert s == prefix + s[|prefix|..];
      assert forall i :: 0 <= i < |s| - |prefix| ==> s[|prefix|..][i] == s[|prefix| + i];
    }
    if PrefixedId(prefix, s) {
      var rest: string :| s == prefix + rest && rest != [] && forall i :: 0 <= i < |rest| ==> LetterOrDigit(rest[i] as int);
      assert forall i :: |prefix| <= i < |s| ==> s[i] == rest[i - |prefix|];
    }
  }

  /** Field by field is path by path. */
  lemma LookupStep(value: Option<Json>, name: string, rest: seq<string>)
    ensures Lookup(value, [name] + rest) == Lookup(Field(AsObject(value), name), rest)
  {
    assert ([name] + rest)[1..] == rest;
  }

  function Entity(payload: Json, name: string): Option<Json> {
    Field(AsObject(Field(AsObject(Field(AsObject(Some(payload)), "payload")), name)), "entity")
  }

  lemma AtPath(payload: Json, name: string, field: string)
    ensures Lookup(Some(payload), ["payload", name, "entity"] + [field]) == Field(AsObject(Entity(payload, name)), field)
    ensures Lookup(Some(payload), [field]) == Field(AsObject(Some(payload)), field)
  {
    hide Lookup;
    var body := Some(payload);
    var inner := Field(AsObject(body), "payload");
    var outer := Field(AsObject(inner), name);
    assert ["payload", name, "entity"] + [field] == ["payload"] + [name, "entity", field];
    LookupStep(body, "payload", [name, "entity", field]);
    assert [name, "entity", field] == [name] + ["entity", field];
    LookupStep(inner, name, ["entity", field]);
    assert ["entity", field] == ["entity"] + [field];
    LookupStep(outer, "entity", [field]);
    LastStep(Entity(payload, name), field);
    LastStep(body, field);
  }

  lemma LastStep(value: Option<Json>, field: string)
    ensures Lookup(value, [field]) == Field(AsObject(value), field)
  {
    assert [field] == [field] + [];
    LookupStep(value, field, []);
  }

  lemma AtNotes(payload: Json, name: string, field: string)
    ensures Lookup(Some(payload), ["payload", name, "entity"] + ["notes", field])
         == Field(AsObject(Field(AsObject(Entity(payload, name)), "notes")), field)
  {
    hide Lookup;
    var body := Some(payload);
    var inner := Field(AsObject(body), "payload");
    var outer := Field(AsObject(inner), name);
    assert ["payload", name, "entity"] + ["notes", field] == ["payload"] + [name, "entity", "notes", field];
    LookupStep(body, "payload", [name, "entity", "notes", field]);
    assert [name, "entity", "notes", field] == [name] + ["entity", "notes", field];
    LookupStep(inner, name, ["entity", "notes", field]);
    assert ["entity", "notes", field] == ["entity"] + ["notes", field];
    LookupStep(outer, "entity", ["notes", field]);
    assert ["notes", field] == ["notes"] + [field];
    LookupStep(Entity(payload, name), "notes", [field]);
    LastStep(Field(AsObject(Entity(payload, name)), "notes"), field);
  }

  lemma NotesAllowIs(payload: Json, name: string, rowId: string)
    ensures NotesAllow(payload, ["payload", name, "entity"], rowId)
      <==> !NotesContradict(AsObject(Field(AsObject(Entity(payload, name)), "notes")), rowId)
  {
    hide Lookup;
    AtPath(payload, name, "notes");
    AtNotes(payload, name, "kind");
    AtNotes(payload, name, "feePaymentId");
  }

  lemma ParseIs(payload: Json, orderId: string, paymentId: string, amountPaise: int, currency: string)
    ensures var p := ParsePayment(Entity(payload, "payment"));
      WellFormedPayment(payload, orderId, paymentId, amountPaise, currency)
      <==> p.Some? && p.value.orderId == orderId && p.value.id == paymentId && p.value.amountPaise == amountPaise && p.value.currency == currency
  {
    hide Lookup, PrefixedId, IsProviderId;
    AtPath(payload, "payment", "order_id");
    AtPath(payload, "payment", "id");
    AtPath(payload, "payment", "amount");
    AtPath(payload, "payment", "currency");
    PrefixedIdIs("order_", orderId);
    PrefixedIdIs("pay_", paymentId);
    assert (amountPaise as real).Floor == amountPaise;
  }

  /** The verdict is a capture, or a failure, exactly when the payload says so. */
  lemma VerdictIs(a: Account, payload: Json, idOf: nat -> string, orderId: string, paymentId: string, amountPaise: int, currency: string)
    ensures var found := FindOrder(a.payments, orderId);
      var about := found.Some? && WellFormedPayment(payload, orderId, paymentId, amountPaise, currency) && Concerns(payload, orderId, idOf(found.value));
      && (Judge(a, payload, idOf) == Capture(SettleInput(orderId, paymentId, amountPaise, currency)) <==> about && IsCaptureEvent(payload))
      && (about && IsText(payload, ["event"], "payment.failed") ==> Judge(a, payload, idOf) == Failure(orderId))
  {
    hide Lookup, WellFormedPayment, ParsePayment, NotesContradict, NotesAllow;
    ParseIs(payload, orderId, paymentId, amountPaise, currency);
    AtPath(payload, "payment", "status");
    AtPath(payload, "order", "id");
    AtPath(payload, "order", "event");
    ParsedStatus(payload);
    var found := FindOrder(a.payments, orderId);
    if found.Some? {
      NotesAllowIs(payload, "payment", idOf(found.value));
      NotesAllowIs(payload, "order", idOf(found.value));
      var p := ParsePayment(Entity(payload, "payment"));
      var event := Text(Field(AsObject(Some(payload)), "event"));
      assert IsText(payload, ["event"], "order.paid") <==> event == Some("order.paid");
      assert IsText(payload, ["event"], "payment.captured") <==> event == Some("payment.captured");
      assert IsText(payload, ["event"], "payment.failed") <==> event == Some("payment.failed");
      assert IsText(payload, ORDER + ["id"], orderId) <==> Field(AsObject(Entity(payload, "order")), "id") == Some(JString(orderId));
      assert p.Some? ==> (IsCaptureEvent(payload) <==> event in {Some("order.paid"), Some("payment.captured")} && (p.value.status.Some? ==> p.value.status.value == "captured"));
      NoNotes(idOf(found.value));
    }
  }

  lemma NoNotes(rowId: string)
    ensures !NotesContradict(None, rowId)
  {
  }

  lemma ParsedStatus(payload: Json)
    ensures var p := ParsePayment(Entity(payload, "payment"));
      p.Some? ==> p.value.status == Text(Field(AsObject(Entity(payload, "payment")), "status"))
                  && p.value.notes == AsObject(Field(AsObject(Entity(payload, "payment")), "notes"))
  {
  }

  /**
   * The ledger changes exactly when the payload is a capture of one of our unpaid orders: event, entities, notes,
   * status, amount, currency and a fresh payment id, all on the payload's own fields. It then is that settlement.
   */
  lemma {:induction false} MoneyMovesOnlyOnCapture(a: Account, cfg: FeeConfig, payload: Json, idOf: nat -> string, now: int)
    requires Inv(a)
    ensures var (b, r) := Handle(a, cfg, payload, idOf, now);
      (b.entries != a.entries <==> exists i: nat, paymentId :: PaysOrder(a, payload, i, idOf(i), paymentId))
    ensures forall i: nat, paymentId :: PaysOrder(a, payload, i, idOf(i), paymentId) ==>
      var p := a.payments[i];
      Handle(a, cfg, payload, idOf, now)
      == (Settle(a, cfg, SettleInput(p.providerOrderId, paymentId, p.amountPaise, p.currency), now).0, Settlement(SettledNow))
  {
    hide Judge, Inv, Settle, Concerns, IsCaptureEvent, WellFormedPayment, FindOrder;
    var b := Handle(a, cfg, payload, idOf, now).0;
    VerdictMovesMoney(a, cfg, payload, idOf, now);
    if b.entries != a.entries {
      var input := Judge(a, payload, idOf).input;
      var i := FindOrder(a.payments, input.providerOrderId).value;
      VerdictIs(a, payload, idOf, input.providerOrderId, input.providerPaymentId, input.amountPaise, input.currency);
      assert PaysOrder(a, payload, i, idOf(i), input.providerPaymentId);
    }
    forall i: nat, paymentId | PaysOrder(a, payload, i, idOf(i), paymentId)
      ensures var p := a.payments[i];
        Handle(a, cfg, payload, idOf, now)
        == (Settle(a, cfg, SettleInput(p.providerOrderId, paymentId, p.amountPaise, p.currency), now).0, Settlement(SettledNow))
      ensures b.entries != a.entries
    {
      var p := a.payments[i];
      OwnOrder(a, i);
      VerdictIs(a, payload, idOf, p.providerOrderId, paymentId, p.amountPaise, p.currency);
      DecidedNow(a, cfg, SettleInput(p.providerOrderId, paymentId, p.amountPaise, p.currency), now, i);
    }
  }

  lemma OwnOrder(a: Account, i: nat)
    requires Inv(a) && i < |a.payments|
    ensures FindOrder(a.payments, a.payments[i].providerOrderId) == Some(i)
  {
    hide LinesOk, BillsOk, AllocationsOk, PaymentsOk, SettlementsOk, JobEntriesOk, PeriodsOk, Balanced, NoPrepaidDebt, StatementsOk;
  }

  lemma DecidedNow(a: Account, cfg: FeeConfig, input: SettleInput, now: int, i: nat)
    requires Inv(a) && i < |a.payments| && FeeRuns.Settles(a.payments, i, input)
    ensures SettleDecision(a, input).SettledNow? && Settle(a, cfg, input, now).1.SettledNow?
  {
    hide Inv;
    OwnOrder(a, i);
  }

  /** An order is marked failed exactly when the payload is a failed attempt on it and it is still created or attempted. */
  lemma {:induction false} FailuresMark(a: Account, cfg: FeeConfig, payload: Json, idOf: nat -> string, now: int)
    requires Inv(a)
    ensures Handle(a, cfg, payload, idOf, now).1.FailedMarked?
      <==> exists i: nat, paymentId, amountPaise, currency :: FailsOrder(a, payload, i, idOf(i), paymentId, amountPaise, currency)
    ensures forall i: nat, paymentId, amountPaise, currency :: FailsOrder(a, payload, i, idOf(i), paymentId, amountPaise, currency) ==>
      Handle(a, cfg, payload, idOf, now).0 == a.(payments := a.payments[i := a.payments[i].(status := Failed)])
    ensures var (b, r) := Handle(a, cfg, payload, idOf, now); b != a ==> r.FailedMarked? || r == Settlement(SettledNow)
  {
    hide Judge, Inv, Settle, Concerns, WellFormedPayment, FindOrder;
    var (b, r) := Handle(a, cfg, payload, idOf, now);
    if Judge(a, payload, idOf).Capture? { SettleCases(a, cfg, Judge(a, payload, idOf).input, now); }
    if r.FailedMarked? {
      var orderId := Judge(a, payload, idOf).orderId;
      var paymentId, amountPaise, currency := FailureNames(a, payload, idOf);
      var i := FindOrder(a.payments, orderId).value;
      assert FailsOrder(a, payload, i, idOf(i), paymentId, amountPaise, currency);
    }
    forall i: nat, paymentId, amountPaise, currency | FailsOrder(a, payload, i, idOf(i), paymentId, amountPaise, currency)
      ensures r.FailedMarked? && b == a.(payments := a.payments[i := a.payments[i].(status := Failed)])
    {
      OwnOrder(a, i);
      VerdictIs(a, payload, idOf, a.payments[i].providerOrderId, paymentId, amountPaise, currency);
      assert b.payments[i].status != a.payments[i].status;
    }
  }

  /** A delivery is handed back unhandled exactly when it is of another kind, malformed, or about no order of ours. */
  lemma {:induction false} UnhandledIff(a: Account, cfg: FeeConfig, payload: Json, idOf: nat -> string, now: int)
    ensures Handle(a, cfg, payload, idOf, now).1.Unhandled? <==>
      !((IsText(payload, ["event"], "payment.captured") || IsText(payload, ["event"], "order.paid") || IsText(payload, ["event"], "payment.failed"))
        && exists i: nat, paymentId, amountPaise, currency ::
             i < |a.payments| && WellFormedPayment(payload, a.payments[i].providerOrderId, paymentId, amountPaise, currency))
  {
    hide Lookup, WellFormedPayment, ParsePayment, NotesContradict, Settle, MarkFailed;
    AtPath(payload, "payment", "event");
    var p := ParsePayment(Entity(payload, "payment"));
    if i: nat, paymentId, amountPaise, currency :|
         i < |a.payments| && WellFormedPayment(payload, a.payments[i].providerOrderId, paymentId, amountPaise, currency) {
      ParseIs(payload, a.payments[i].providerOrderId, paymentId, amountPaise, currency);
      assert p.Some? && FindOrder(a.payments, p.value.orderId).Some?;
    }
    if p.Some? { ParseIs(payload, p.value.orderId, p.value.id, p.value.amountPaise, p.value.currency); }
  }

  lemma FailureNames(a: Account, payload: Json, idOf: nat -> string) returns (paymentId: string, amountPaise: int, currency: string)
    requires Judge(a, payload, idOf).Failure?
    ensures var orderId := Judge(a, payload, idOf).orderId;
      var found := FindOrder(a.payments, orderId);
      found.Some? && IsText(payload, ["event"], "payment.failed")
      && WellFormedPayment(payload, orderId, paymentId, amountPaise, currency) && Concerns(payload, orderId, idOf(found.value))
  {
    hide Lookup, WellFormedPayment, ParsePayment, NotesContradict, NotesAllow;
    var p := ParsePayment(Entity(payload, "payment")).value;
    paymentId, amountPaise, currency := p.id, p.amountPaise, p.currency;
    ParseIs(payload, p.orderId, p.id, p.amountPaise, p.currency);
    AtPath(payload, "order", "event");
    ParsedStatus(payload);
    var found := FindOrder(a.payments, p.orderId);
    NotesAllowIs(payload, "payment", idOf(found.value));
  }

  /** Given the verdict, the ledger changes exactly for a capture that settles, by its amount. */
  lemma {:induction false} VerdictMovesMoney(a: Account, cfg: FeeConfig, payload: Json, idOf: nat -> string, now: int)
    requires Inv(a)
    ensures var (b, r) := Handle(a, cfg, payload, idOf, now);
      var verdict := Judge(a, payload, idOf);
      && (b.entries != a.entries <==> verdict.Capture? && SettleDecision(a, verdict.input).SettledNow?)
      && (b.entries != a.entries ==> OpenBalance(b) == OpenBalance(a) - verdict.input.amountPaise && r == Settlement(SettledNow))
      && (b.entries == a.entries ==> b.statements == a.statements && b.allocations == a.allocations)
  {
    hide Judge, Inv, Allocate, UnpaidRows, Balanced, OpenBalance;
    var verdict := Judge(a, payload, idOf);
    if verdict.Capture? {
      FeeRuns.BalanceMoves(a, cfg, FeeRuns.PaymentSettled(verdict.input), now);
      var b := Settle(a, cfg, verdict.input, now).0;
      if SettleDecision(a, verdict.input).SettledNow? { assert |b.entries| == |a.entries| + 1; }
    }
  }
}
