/**
 * One shop's platform-fee tables and the transactions that change them.
 * Every transaction runs under the shop row lock, so each is one atomic step.
 * A row id is the row's insertion number in its table.
 */
module FeeLedger {
  import opened Options
  import opened Numbers
  import opened Commission
  import opened Sums
  import opened RowOrder

  const FEE_ORDER_TTL_MS := 60 * 60_000

  datatype EntryType = PrintCommission | RefundCredit | ManualCredit | StatementSettlement

  datatype Entry = Entry(
    kind: EntryType, amountPaise: int, createdAt: int, jobId: Option<string>, feePaymentId: Option<nat>)

  /** `draft` is never written; the AutoPay states are dormant but still count as unpaid. */
  datatype StatementStatus = Draft | Frozen | NoticeSent | DebitPending | Settled | DebitFailed | Paused

  datatype Statement = Statement(
    periodStart: int, periodEnd: int, grossPaise: int, creditPaise: int, duePaise: int, paidPaise: int,
    status: StatementStatus, frozenAt: int, dueAt: Option<int>, settledAt: Option<int>)

  datatype Line = Line(statementId: nat, entryId: nat, amountPaise: int)

  datatype OrderStatus = Created | Attempted | Failed | Paid | Expired

  datatype FeePayment = FeePayment(
    providerOrderId: string, amountPaise: int, currency: string, status: OrderStatus,
    providerPaymentId: Option<string>, createdAt: int, expiresAt: int, paidAt: Option<int>, unallocatedPaise: int)

  datatype Allocation = Allocation(paymentId: nat, statementId: nat, amountPaise: int)

  datatype Account = Account(
    entries: seq<Entry>, lines: seq<Line>, statements: seq<Statement>, payments: seq<FeePayment>,
    allocations: seq<Allocation>, blockedAt: Option<int>, overrideUntil: Option<int>)

  datatype FeeConfig = FeeConfig(enabled: bool, termsDays: nat, blockAfterDays: nat)

  const EmptyAccount := Account([], [], [], [], [], None, None)

  predicate IsUnpaid(s: Statement) {
    s.status in {Frozen, NoticeSent, DebitPending, DebitFailed, Paused}
  }

  predicate IsOpenOrder(p: FeePayment) { p.status in {Created, Attempted, Failed} }

  // ---------- table columns ----------

  function Amounts(entries: seq<Entry>): seq<int> {
    seq(|entries|, i requires 0 <= i < |entries| => entries[i].amountPaise)
  }

  predicate Statemented(lines: seq<Line>, entryId: nat) {
    exists k :: 0 <= k < |lines| && lines[k].entryId == entryId
  }

  /** Commission and credits no statement carries yet. */
  predicate IsOpenEntry(entries: seq<Entry>, lines: seq<Line>, i: nat)
    requires i < |entries|
  {
    !entries[i].kind.StatementSettlement? && !Statemented(lines, i)
  }

  function OpenAmounts(entries: seq<Entry>, lines: seq<Line>): seq<int> {
    seq(|entries|, i requires 0 <= i < |entries| => if IsOpenEntry(entries, lines, i) then entries[i].amountPaise else 0)
  }

  function Outstanding(statements: seq<Statement>): seq<int> {
    seq(|statements|, i requires 0 <= i < |statements| => statements[i].duePaise - statements[i].paidPaise)
  }

  function Unallocated(payments: seq<FeePayment>): seq<int> {
    seq(|payments|, i requires 0 <= i < |payments| =>
      if payments[i].status.Paid? then payments[i].unallocatedPaise else 0)
  }

  // ---------- what the shop owes ----------

  /** Outstanding amount a statement contributes to the account view. */
  function ShownDue(s: Statement): int {
    if (IsUnpaid(s) || s.status.Settled?) && s.duePaise > 0 then Max(0, s.duePaise - s.paidPaise) else 0
  }

  function ShownDues(statements: seq<Statement>): seq<int> {
    seq(|statements|, i requires 0 <= i < |statements| => ShownDue(statements[i]))
  }

  function StatementsDue(statements: seq<Statement>): int { Sum(ShownDues(statements)) }

  function Accrued(a: Account): int {
    Max(0, Sum(OpenAmounts(a.entries, a.lines)) - Sum(Unallocated(a.payments)))
  }

  /** `totalDuePaise`: what the owner would be asked to pay now. */
  function TotalDue(a: Account): int { StatementsDue(a.statements) + Accrued(a) }

  /** `getOpenCommissionBalance`: the sum of all ledger entries. */
  function OpenBalance(a: Account): int { Sum(Amounts(a.entries)) }

  // ---------- posting commission and credits ----------

  function FindJobEntry(entries: seq<Entry>, jobId: string, kind: EntryType): (r: Option<nat>)
    ensures r.Some? ==> r.value < |entries| && entries[r.value].kind == kind && entries[r.value].jobId == Some(jobId)
    ensures r.None? ==> forall i :: 0 <= i < |entries| ==> !(entries[i].kind == kind && entries[i].jobId == Some(jobId))
  {
    if entries == [] then None
    else
      var last := |entries| - 1;
      if entries[last].kind == kind && entries[last].jobId == Some(jobId) then Some(last)
      else FindJobEntry(entries[..last], jobId, kind)
  }

  /** The upsert on (jobId, print_commission). */
  function PostCommission(a: Account, jobId: string, totalPaise: nat, shopBasePaise: nat, now: int): Account {
    if FindJobEntry(a.entries, jobId, PrintCommission).Some? then a
    else a.(entries := a.entries + [Entry(PrintCommission, CommissionFor(totalPaise, shopBasePaise), now, Some(jobId), None)])
  }

  /** Support refund: reverses the job's commission, once. */
  function PostRefundCredit(a: Account, jobId: string, now: int): Account {
    var commission := FindJobEntry(a.entries, jobId, PrintCommission);
    if commission.None? || FindJobEntry(a.entries, jobId, RefundCredit).Some? then a
    else a.(entries := a.entries + [Entry(RefundCredit, -a.entries[commission.value].amountPaise, now, Some(jobId), None)])
  }

  /** An operator's credit row; no route writes one, but every query reads them. */
  function PostManualCredit(a: Account, amountPaise: int, now: int): Account {
    a.(entries := a.entries + [Entry(ManualCredit, amountPaise, now, None, None)])
  }

  // ---------- weekly freeze ----------

  datatype StatementAmounts = StatementAmounts(grossPaise: int, creditPaise: int, duePaise: int)

  /** `deriveStatementAmounts`; None is its RangeError. */
  function DeriveStatementAmounts(amounts: seq<int>): (r: Option<StatementAmounts>) {
    var gross, credit := Gross(amounts), Gross(Negated(amounts));
    if gross > MAX_SAFE_INTEGER || credit > MAX_SAFE_INTEGER then None
    else Some(StatementAmounts(gross, credit, Max(0, gross - credit)))
  }

  function Positives(amounts: seq<int>): seq<int> {
    seq(|amounts|, i requires 0 <= i < |amounts| => Max(0, amounts[i]))
  }

  function Gross(amounts: seq<int>): int { Sum(Positives(amounts)) }

  function Negated(amounts: seq<int>): seq<int> {
    seq(|amounts|, i requires 0 <= i < |amounts| => -amounts[i])
  }

  function FindPeriod(statements: seq<Statement>, start: int, end: int): (r: Option<nat>)
    ensures r.Some? ==> r.value < |statements| && statements[r.value].periodStart == start && statements[r.value].periodEnd == end
    ensures r.None? ==> forall i :: 0 <= i < |statements| ==> !(statements[i].periodStart == start && statements[i].periodEnd == end)
  {
    if statements == [] then None
    else
      var last := |statements| - 1;
      if statements[last].periodStart == start && statements[last].periodEnd == end then Some(last)
      else FindPeriod(statements[..last], start, end)
  }

  function FreezePick(a: Account, end: int): (r: seq<bool>)
    ensures |r| == |a.entries|
    ensures forall i :: 0 <= i < |r| ==> r[i] == (a.entries[i].createdAt < end && IsOpenEntry(a.entries, a.lines, i))
  {
    seq(|a.entries|, i requires 0 <= i < |a.entries| => a.entries[i].createdAt < end && IsOpenEntry(a.entries, a.lines, i))
  }

  function EntryKeys(entries: seq<Entry>): (r: seq<Key>)
    ensures |r| == |entries|
  {
    seq(|entries|, i requires 0 <= i < |entries| => Key(entries[i].createdAt, 0, 0))
  }

  /** Unstatemented commission and credits created before the cutoff, oldest first. */
  function FreezeRows(a: Account, end: int): (r: seq<nat>)
    ensures InRange(r, |a.entries|)
  {
    Select(EntryKeys(a.entries), FreezePick(a, end))
  }

  function NewLines(a: Account, rows: seq<nat>): seq<Line>
    requires InRange(rows, |a.entries|)
  {
    seq(|rows|, k requires 0 <= k < |rows| => Line(|a.statements|, rows[k], a.entries[rows[k]].amountPaise))
  }

  datatype Draw = Draw(
    payments: seq<FeePayment>, allocations: seq<Allocation>, remaining: int, applied: int)

  function DrawFrom(d: Draw, paymentId: nat, statementId: nat): (r: Draw)
    requires paymentId < |d.payments|
  {
    var p := d.payments[paymentId];
    var take := Min(d.remaining, p.unallocatedPaise);
    Draw(d.payments[paymentId := p.(unallocatedPaise := p.unallocatedPaise - take)],
         d.allocations + [Allocation(paymentId, statementId, take)],
         d.remaining - take, d.applied + take)
  }

  function DrawAll(d: Draw, rows: seq<nat>, statementId: nat): (r: Draw)
    requires InRange(rows, |d.payments|)
    ensures |r.payments| == |d.payments|
    decreases |rows|
  {
    if rows == [] || d.remaining <= 0 then d
    else DrawAll(DrawFrom(d, rows[0], statementId), rows[1..], statementId)
  }

  function PrepaidPick(payments: seq<FeePayment>): (r: seq<bool>)
    ensures |r| == |payments|
  {
    seq(|payments|, i requires 0 <= i < |payments| => payments[i].status.Paid? && payments[i].unallocatedPaise > 0)
  }

  /** `paidAt ASC`, nulls last. */
  function PaidKeys(payments: seq<FeePayment>): (r: seq<Key>)
    ensures |r| == |payments|
  {
    seq(|payments|, i requires 0 <= i < |payments| =>
      match payments[i].paidAt case None => Key(1, 0, 0) case Some(t) => Key(0, t, 0))
  }

  function PrepaidRows(payments: seq<FeePayment>): (r: seq<nat>)
    ensures InRange(r, |payments|)
  {
    Select(PaidKeys(payments), PrepaidPick(payments))
  }

  function ApplyPrepaid(a: Account, statementId: nat, duePaise: int): (r: Draw)
    ensures |r.payments| == |a.payments|
  {
    DrawAll(Draw(a.payments, a.allocations, duePaise, 0), PrepaidRows(a.payments), statementId)
  }

  function DueAtFor(cfg: FeeConfig, frozenAt: int): int { frozenAt + cfg.termsDays * DAY_MS }
  function BlockAtFor(cfg: FeeConfig, dueAt: int): int { dueAt + cfg.blockAfterDays * DAY_MS }

  datatype FreezeOutcome =
    BadPeriod | AlreadyFrozen(statementId: nat) | NothingToFreeze | UnsafeTotal | SurplusCredit | FrozenNow(statementId: nat)

  function NewStatement(
    cfg: FeeConfig, start: int, end: int, amounts: StatementAmounts, applied: int, now: int): Statement
  {
    var s := Statement(start, end, amounts.grossPaise, amounts.creditPaise, amounts.duePaise, 0,
                       if amounts.duePaise == 0 then Settled else Frozen, now,
                       if amounts.duePaise > 0 && cfg.enabled then Some(DueAtFor(cfg, now)) else None,
                       if amounts.duePaise == 0 then Some(now) else None);
    if applied == 0 then s
    else if applied >= amounts.duePaise then s.(paidPaise := applied, status := Settled, settledAt := Some(now))
    else s.(paidPaise := applied)
  }

  function Freeze(a: Account, cfg: FeeConfig, start: int, end: int, now: int): (Account, FreezeOutcome) {
    if end <= start then (a, BadPeriod)
    else
      var existing := FindPeriod(a.statements, start, end);
      if existing.Some? then (a, AlreadyFrozen(existing.value))
      else
        var rows := FreezeRows(a, end);
        if rows == [] then (a, NothingToFreeze)
        else
          match DeriveStatementAmounts(At(Amounts(a.entries), rows))
          case None => (a, UnsafeTotal)
          case Some(amounts) =>
            if amounts.creditPaise > amounts.grossPaise then (a, SurplusCredit)
            else
              var d := ApplyPrepaid(a, |a.statements|, amounts.duePaise);
              (a.(lines := a.lines + NewLines(a, rows),
                  statements := a.statements + [NewStatement(cfg, start, end, amounts, d.applied, now)],
                  payments := d.payments,
                  allocations := d.allocations),
               FrozenNow(|a.statements|))
  }

  // ---------- Checkout orders ----------

  function FindOrder(payments: seq<FeePayment>, providerOrderId: string): (r: Option<nat>)
    ensures r.Some? ==> r.value < |payments| && payments[r.value].providerOrderId == providerOrderId
    ensures r.None? ==> forall i :: 0 <= i < |payments| ==> payments[i].providerOrderId != providerOrderId
  {
    if payments == [] then None
    else
      var last := |payments| - 1;
      if payments[last].providerOrderId == providerOrderId then Some(last)
      else FindOrder(payments[..last], providerOrderId)
  }

  datatype OrderOutcome = NothingDue | Reused(paymentId: nat) | Opened(paymentId: nat) | DuplicateOrderId

  /** The most recent open order that still asks for the amount due. */
  function FindReusable(payments: seq<FeePayment>, amountPaise: int, now: int): (r: Option<nat>)
    ensures r.Some? ==> r.value < |payments| && IsOpenOrder(payments[r.value])
                        && payments[r.value].amountPaise == amountPaise && payments[r.value].expiresAt > now
  {
    if payments == [] then None
    else
      var last := |payments| - 1;
      if IsOpenOrder(payments[last]) && payments[last].amountPaise == amountPaise && payments[last].expiresAt > now
      then Some(last)
      else FindReusable(payments[..last], amountPaise, now)
  }

  function ExpireWhere(payments: seq<FeePayment>, before: Option<int>): (r: seq<FeePayment>)
    ensures |r| == |payments|
  {
    seq(|payments|, i requires 0 <= i < |payments| =>
      if IsOpenOrder(payments[i]) && (before.None? || payments[i].expiresAt < before.value)
      then payments[i].(status := Expired) else payments[i])
  }

  /** The locked part of `createFeeOrder`; the provider answers with `providerOrderId`. */
  function CreateOrder(a: Account, providerOrderId: string, now: int): (Account, OrderOutcome) {
    var amount := TotalDue(a);
    if amount <= 0 then (a, NothingDue)
    else
      var reusable := FindReusable(a.payments, amount, now);
      if reusable.Some? then (a, Reused(reusable.value))
      else if FindOrder(a.payments, providerOrderId).Some? then (a, DuplicateOrderId)
      else
        (a.(payments := ExpireWhere(a.payments, None)
             + [FeePayment(providerOrderId, amount, "INR", Created, None, now, now + FEE_ORDER_TTL_MS, None, 0)]),
         Opened(|a.payments|))
  }

  // ---------- settlement ----------

  datatype Wallet = Wallet(statements: seq<Statement>, allocations: seq<Allocation>, remaining: int)

  function TakeFor(w: Wallet, statementId: nat, paymentId: nat, now: int): (r: Wallet)
    requires statementId < |w.statements|
    ensures |r.statements| == |w.statements|
  {
    var s := w.statements[statementId];
    var outstanding := s.duePaise - s.paidPaise;
    if outstanding <= 0 then w
    else
      var take := Min(outstanding, w.remaining);
      var paid := s.(paidPaise := s.paidPaise + take);
      Wallet(w.statements[statementId := if take == outstanding then paid.(status := Settled, settledAt := Some(now)) else paid],
             w.allocations + [Allocation(paymentId, statementId, take)],
             w.remaining - take)
  }

  function Allocate(w: Wallet, rows: seq<nat>, paymentId: nat, now: int): (r: Wallet)
    requires InRange(rows, |w.statements|)
    ensures |r.statements| == |w.statements|
    decreases |rows|
  {
    if rows == [] || w.remaining <= 0 then w
    else Allocate(TakeFor(w, rows[0], paymentId, now), rows[1..], paymentId, now)
  }

  function UnpaidPick(statements: seq<Statement>): (r: seq<bool>)
    ensures |r| == |statements|
  {
    seq(|statements|, i requires 0 <= i < |statements| => IsUnpaid(statements[i]) && statements[i].duePaise > 0)
  }

  function PeriodKeys(statements: seq<Statement>): (r: seq<Key>)
    ensures |r| == |statements|
  {
    seq(|statements|, i requires 0 <= i < |statements| => Key(statements[i].periodEnd, 0, 0))
  }

  /** Unpaid statements, oldest period first. */
  function UnpaidRows(statements: seq<Statement>): (r: seq<nat>)
    ensures InRange(r, |statements|)
  {
    Select(PeriodKeys(statements), UnpaidPick(statements))
  }

  datatype SettleInput = SettleInput(
    providerOrderId: string, providerPaymentId: string, amountPaise: int, currency: string)

  /** `DuplicatePaymentId` is the unique-column violation that rolls the whole transaction back. */
  datatype SettleOutcome = SettledNow | AlreadyPaid | UnknownOrder | Mismatch | Conflict | DuplicatePaymentId

  predicate PaymentIdTaken(payments: seq<FeePayment>, providerPaymentId: string) {
    exists i :: 0 <= i < |payments| && payments[i].providerPaymentId == Some(providerPaymentId)
  }

  function SettleDecision(a: Account, input: SettleInput): SettleOutcome {
    var found := FindOrder(a.payments, input.providerOrderId);
    if found.None? then UnknownOrder
    else
      var p := a.payments[found.value];
      if p.status.Paid? then (if p.providerPaymentId == Some(input.providerPaymentId) then AlreadyPaid else Conflict)
      else if input.amountPaise != p.amountPaise || input.currency != p.currency then Mismatch
      else if PaymentIdTaken(a.payments, input.providerPaymentId) then DuplicatePaymentId
      else SettledNow
  }

  /** The rows a settlement writes, before the block is re-evaluated. */
  function PostSettlement(a: Account, paymentId: nat, providerPaymentId: string, now: int): Account
    requires paymentId < |a.payments|
  {
    var p := a.payments[paymentId];
    var w := Allocate(Wallet(a.statements, a.allocations, p.amountPaise), UnpaidRows(a.statements), paymentId, now);
    a.(statements := w.statements,
       allocations := w.allocations,
       entries := a.entries + [Entry(StatementSettlement, -p.amountPaise, now, None, Some(paymentId))],
       payments := a.payments[paymentId := p.(status := Paid, providerPaymentId := Some(providerPaymentId),
                                              paidAt := Some(now), unallocatedPaise := w.remaining)])
  }

  function Settle(a: Account, cfg: FeeConfig, input: SettleInput, now: int): (Account, SettleOutcome) {
    var outcome := SettleDecision(a, input);
    if !outcome.SettledNow? then (a, outcome)
    else
      var id := FindOrder(a.payments, input.providerOrderId).value;
      (EvaluateBlock(PostSettlement(a, id, input.providerPaymentId, now), cfg, now), SettledNow)
  }

  // ---------- order status updates ----------

  function MarkFailed(a: Account, providerOrderId: string): Account {
    var found := FindOrder(a.payments, providerOrderId);
    if found.Some? && a.payments[found.value].status in {Created, Attempted}
    then a.(payments := a.payments[found.value := a.payments[found.value].(status := Failed)])
    else a
  }

  function MarkAttempted(a: Account, paymentId: nat): Account {
    if paymentId < |a.payments| && a.payments[paymentId].status.Created?
    then a.(payments := a.payments[paymentId := a.payments[paymentId].(status := Attempted)])
    else a
  }

  function ExpireStale(a: Account, now: int): Account { a.(payments := ExpireWhere(a.payments, Some(now))) }

  // ---------- blocking ----------

  predicate IsOverdue(s: Statement, cfg: FeeConfig, now: int) {
    IsUnpaid(s) && s.duePaise > 0 && s.dueAt.Some? && s.duePaise > s.paidPaise && BlockAtFor(cfg, s.dueAt.value) <= now
  }

  predicate HasOverdue(a: Account, cfg: FeeConfig, now: int) {
    cfg.enabled && exists i :: 0 <= i < |a.statements| && IsOverdue(a.statements[i], cfg, now)
  }

  predicate OverrideActive(a: Account, now: int) { a.overrideUntil.Some? && a.overrideUntil.value > now }

  function EvaluateBlock(a: Account, cfg: FeeConfig, now: int): Account {
    var overdue, lifted := HasOverdue(a, cfg, now), OverrideActive(a, now);
    if overdue && !lifted && a.blockedAt.None? then a.(blockedAt := Some(now))
    else if (!overdue || lifted) && a.blockedAt.Some? then a.(blockedAt := None)
    else a
  }

  /** Support lifts a block for some days; refused when the shop is not blocked. */
  function LiftBlock(a: Account, days: nat, now: int): Account {
    if a.blockedAt.None? then a else a.(blockedAt := None, overrideUntil := Some(now + days * DAY_MS))
  }

  /** Maintenance gives a due date to statements frozen while fee payments were off. */
  function AdoptStatement(s: Statement, cfg: FeeConfig, now: int): Statement {
    if IsUnpaid(s) && s.duePaise > 0 && s.dueAt.None? then s.(dueAt := Some(DueAtFor(cfg, now))) else s
  }

  function Adopt(a: Account, cfg: FeeConfig, now: int): Account {
    if !cfg.enabled then a
    else a.(statements := seq(|a.statements|, i requires 0 <= i < |a.statements| => AdoptStatement(a.statements[i], cfg, now)))
  }
}
