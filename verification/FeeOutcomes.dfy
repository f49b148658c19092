/** What the fee transactions decide and write, column by column. */
module FeeOutcomes {
  import opened Options
  import opened Numbers
  import opened Commission
  import opened Sums
  import opened RowOrder
  import opened FeeLedger
  import opened FeeAllocation
  import opened FeeInvariant
  import opened FeeService
  import opened FeeRuns

  // ---------- the weekly freeze ----------

  /** Commission or credit from before the cutoff that no statement carries. */
  predicate Billable(a: Account, i: nat, end: int)
    requires i < |a.entries|
  {
    a.entries[i].createdAt < end && a.entries[i].kind in {PrintCommission, RefundCredit, ManualCredit}
    && forall k :: 0 <= k < |a.lines| ==> a.lines[k].entryId != i
  }

  function Charges(a: Account, end: int): (r: seq<int>)
    ensures |r| == |a.entries|
  {
    seq(|a.entries|, i requires 0 <= i < |a.entries| => if Billable(a, i, end) && a.entries[i].amountPaise > 0 then a.entries[i].amountPaise else 0)
  }

  function Credits(a: Account, end: int): (r: seq<int>)
    ensures |r| == |a.entries|
  {
    seq(|a.entries|, i requires 0 <= i < |a.entries| => if Billable(a, i, end) && a.entries[i].amountPaise < 0 then -a.entries[i].amountPaise else 0)
  }

  predicate HasPeriod(a: Account, start: int, end: int) {
    exists i :: 0 <= i < |a.statements| && a.statements[i].periodStart == start && a.statements[i].periodEnd == end
  }

  predicate HasBillable(a: Account, end: int) { exists i: nat :: i < |a.entries| && Billable(a, i, end) }

  lemma FrozenRowsAreBillable(a: Account, end: int, i: nat)
    requires i < |a.entries|
    ensures FreezePick(a, end)[i] <==> Billable(a, i, end)
    ensures i in FreezeRows(a, end) <==> Billable(a, i, end)
  {
    FreezeRowsSpec(a, end);
  }

  lemma FrozenTotals(a: Account, end: int)
    ensures var amounts := At(Amounts(a.entries), FreezeRows(a, end));
      Gross(amounts) == Sum(Charges(a, end)) && Gross(Negated(amounts)) == Sum(Credits(a, end))
    ensures FreezeRows(a, end) == [] <==> !HasBillable(a, end)
  {
    var rows, column := FreezeRows(a, end), Amounts(a.entries);
    var pick := FreezePick(a, end);
    forall i | 0 <= i < |a.entries|
      ensures pick[i] == Billable(a, i, end) && (i in rows <==> Billable(a, i, end))
    {
      FrozenRowsAreBillable(a, end, i);
    }
    assert Positives(At(column, rows)) == At(Positives(column), rows);
    assert Positives(Negated(At(column, rows))) == At(Positives(Negated(column)), rows);
    SelectSum(EntryKeys(a.entries), pick, Positives(column));
    SelectSum(EntryKeys(a.entries), pick, Positives(Negated(column)));
    assert Masked(Positives(column), pick) == Charges(a, end);
    assert Masked(Positives(Negated(column)), pick) == Credits(a, end);
    if rows != [] { assert rows[0] in rows; }
  }

  /** Which answer a freeze gives, exactly: a credit alone never stops it, a surplus of credit does. */
  lemma FreezeDecides(a: Account, cfg: FeeConfig, start: int, end: int, now: int)
    ensures var outcome := Freeze(a, cfg, start, end, now).1;
      var charges, credits := Sum(Charges(a, end)), Sum(Credits(a, end));
      var open := start < end && !HasPeriod(a, start, end);
      && (outcome.BadPeriod? <==> end <= start)
      && (outcome.AlreadyFrozen? <==> start < end && HasPeriod(a, start, end))
      && (outcome.NothingToFreeze? <==> open && !HasBillable(a, end))
      && (outcome.UnsafeTotal? <==> open && HasBillable(a, end) && Max(charges, credits) > MAX_SAFE_INTEGER)
      && (outcome.SurplusCredit? <==> open && HasBillable(a, end) && Max(charges, credits) <= MAX_SAFE_INTEGER && credits > charges)
      && (outcome.FrozenNow? <==> open && HasBillable(a, end) && Max(charges, credits) <= MAX_SAFE_INTEGER && credits <= charges)
  {
    hide FreezeRows, ApplyPrepaid, NewLines, NewStatement, Charges, Credits, Billable;
    FrozenTotals(a, end);
  }

  /** What the freeze leaves: one new statement with these columns, one line for each billable entry, nothing else touched but prepayment. */
  lemma FrozenStatementCarries(a: Account, cfg: FeeConfig, start: int, end: int, now: int)
    requires Inv(a) && Freeze(a, cfg, start, end, now).1.FrozenNow?
    ensures var b, n := Freeze(a, cfg, start, end, now).0, |a.statements|;
      && |b.statements| == n + 1 && b.statements[..n] == a.statements
      && b.entries == a.entries && b.blockedAt == a.blockedAt && b.overrideUntil == a.overrideUntil
      && var s := b.statements[n];
      && s.periodStart == start && s.periodEnd == end && s.frozenAt == now
      && s.grossPaise == Sum(Charges(a, end)) && s.creditPaise == Sum(Credits(a, end)) && s.duePaise == s.grossPaise - s.creditPaise
      && s.paidPaise == Min(s.duePaise, Sum(Unallocated(a.payments)))
      && s.dueAt == (if cfg.enabled && s.duePaise > 0 then Some(now + cfg.termsDays * DAY_MS) else None)
      && s.status == (if s.paidPaise == s.duePaise then Settled else Frozen)
      && s.settledAt == (if s.paidPaise == s.duePaise then Some(now) else None)
  {
    hide LinesOk, StatementsOk, BillsOk, SettlementsOk, OrdersOk, JobEntriesOk, PeriodsOk, Balanced, NoPrepaidDebt, Charges, Credits, FreezeRows;
    var rows, amounts, d := FreezeCases(a, cfg, start, end, now);
    FrozenTotals(a, end);
    GrossMinusCredit(At(Amounts(a.entries), rows));
    PrepaidUse(a, amounts.duePaise);
    UnallocatedNonNegative(a.payments);
  }

  /** An entry gets a line of its own amount on the new statement exactly when it was billable. */
  lemma FrozenLinesAre(a: Account, cfg: FeeConfig, start: int, end: int, now: int, i: nat)
    requires Freeze(a, cfg, start, end, now).1.FrozenNow? && i < |a.entries|
    ensures var b := Freeze(a, cfg, start, end, now).0;
      && |a.lines| <= |b.lines| && b.lines[..|a.lines|] == a.lines
      && (Billable(a, i, end) <==>
            exists k :: |a.lines| <= k < |b.lines| && b.lines[k] == Line(|a.statements|, i, a.entries[i].amountPaise))
  {
    hide ApplyPrepaid, DeriveStatementAmounts, FreezeRows, Billable;
    var b, rows := Freeze(a, cfg, start, end, now).0, FreezeRows(a, end);
    FrozenRowsAreBillable(a, end, i);
    if i in rows {
      var k :| 0 <= k < |rows| && rows[k] == i;
      assert b.lines[|a.lines| + k] == Line(|a.statements|, i, a.entries[i].amountPaise);
    }
    if k :| |a.lines| <= k < |b.lines| && b.lines[k] == Line(|a.statements|, i, a.entries[i].amountPaise) {
      assert rows[k - |a.lines|] == i;
    }
  }

  // ---------- prepayment, oldest first ----------

  lemma {:induction false} DrawsInOrder(d: Draw, rows: seq<nat>, statementId: nat, x: nat, y: nat)
    requires PrepaidOk(d.payments) && InRange(rows, |d.payments|) && DistinctRows(rows) && 0 <= d.remaining
    requires x < y < |rows|
    ensures var r := DrawAll(d, rows, statementId);
      r.payments[rows[y]] != d.payments[rows[y]] ==> r.payments[rows[x]].unallocatedPaise == 0
    decreases |rows|
  {
    if d.remaining > 0 {
      TailRows(rows);
      var d1 := DrawFrom(d, rows[0], statementId);
      assert rows[y] == rows[1..][y - 1];
      if x == 0 {
        DrawAllLeaves(d1, rows[1..], statementId, rows[0]);
      } else {
        assert rows[x] == rows[1..][x - 1];
        DrawsInOrder(d1, rows[1..], statementId, x - 1, y - 1);
      }
    }
  }

  /** Paid earlier; a payment without a time counts as last, and the row number breaks ties. */
  predicate PaidEarlier(payments: seq<FeePayment>, p: nat, q: nat)
    requires p < |payments| && q < |payments|
  {
    match (payments[p].paidAt, payments[q].paidAt)
    case (Some(x), Some(y)) => x < y || (x == y && p < q)
    case (Some(_), None) => true
    case (None, Some(_)) => false
    case (None, None) => p < q
  }

  /** A payment is drawn on only when every prepayment made earlier is used up. */
  lemma PrepaidOldestFirst(a: Account, statementId: nat, duePaise: int, p: nat, q: nat)
    requires PrepaidOk(a.payments) && 0 <= duePaise && p < |a.payments| && q < |a.payments|
    requires PaidEarlier(a.payments, p, q)
    ensures var d := ApplyPrepaid(a, statementId, duePaise);
      d.payments[q].unallocatedPaise < a.payments[q].unallocatedPaise ==> d.payments[p].unallocatedPaise == 0
  {
    hide DrawAll, PrepaidRows;
    var rows, d0 := PrepaidRows(a.payments), Draw(a.payments, a.allocations, duePaise, 0);
    PrepaidRowsSpec(a.payments);
    if q !in rows {
      DrawAllLeaves(d0, rows, statementId, q);
    } else if p !in rows {
      DrawAllLeaves(d0, rows, statementId, p);
    } else {
      var x, y := PrepaidInOrder(a.payments, p, q);
      DrawsInOrder(d0, rows, statementId, x, y);
    }
  }

  lemma PrepaidInOrder(payments: seq<FeePayment>, p: nat, q: nat) returns (x: nat, y: nat)
    requires p < |payments| && q < |payments| && PaidEarlier(payments, p, q)
    requires p in PrepaidRows(payments) && q in PrepaidRows(payments)
    ensures x < y < |PrepaidRows(payments)| && PrepaidRows(payments)[x] == p && PrepaidRows(payments)[y] == q
  {
    hide Select;
    var rows := PrepaidRows(payments);
    SelectSpec(PaidKeys(payments), PrepaidPick(payments));
    x :| 0 <= x < |rows| && rows[x] == p;
    y :| 0 <= y < |rows| && rows[y] == q;
    assert forall u, v :: 0 <= u < v < |rows| ==> Before(PaidKeys(payments), rows[u], rows[v]);
  }

  // ---------- orders ----------

  /** Which answer an order request gives, exactly. */
  lemma OrderDecides(a: Account, providerOrderId: string, now: int)
    requires Inv(a)
    ensures var outcome, due := CreateOrder(a, providerOrderId, now).1, TotalDue(a);
      && (outcome.NothingDue? <==> due <= 0)
      && (outcome.Reused? <==> due > 0 && exists i: nat :: Reusable(a, i, now))
      && (forall i: nat :: outcome == Reused(i) <==> due > 0 && Reusable(a, i, now))
      && (outcome.DuplicateOrderId? ==> exists i :: 0 <= i < |a.payments| && a.payments[i].providerOrderId == providerOrderId)
      && (outcome.Opened? ==> due > 0 && forall i :: 0 <= i < |a.payments| ==> a.payments[i].providerOrderId != providerOrderId)
      && (!outcome.Opened? ==> CreateOrder(a, providerOrderId, now).0 == a)
  {
    hide LinesOk, BillsOk, AllocationsOk, PaymentsOk, SettlementsOk, JobEntriesOk, PeriodsOk, Balanced, NoPrepaidDebt, StatementsOk, TotalDue;
    var found := FindReusable(a.payments, TotalDue(a), now);
    if i: nat :| Reusable(a, i, now) { FindsReusable(a.payments, TotalDue(a), now, i); }
    if found.Some? {
      assert Reusable(a, found.value, now);
      forall i: nat | Reusable(a, i, now) ensures i == found.value {
        assert i < found.value || found.value < i || i == found.value;
      }
    }
  }

  /** An order still open for exactly the amount due, not yet expired. */
  predicate Reusable(a: Account, i: nat, now: int) {
    i < |a.payments| && a.payments[i].status in {Created, Attempted, Failed} && a.payments[i].amountPaise == TotalDue(a) && now < a.payments[i].expiresAt
  }

  lemma {:induction false} FindsReusable(payments: seq<FeePayment>, amountPaise: int, now: int, i: nat)
    requires i < |payments| && payments[i].status in {Created, Attempted, Failed} && payments[i].amountPaise == amountPaise && now < payments[i].expiresAt
    ensures FindReusable(payments, amountPaise, now).Some?
  {
    if i < |payments| - 1 { FindsReusable(payments[..|payments| - 1], amountPaise, now, i); }
  }

  /** A new order asks the amount due for an hour, and every other order that was open is expired by it. */
  lemma OpenedOrderIs(a: Account, providerOrderId: string, now: int)
    requires CreateOrder(a, providerOrderId, now).1.Opened?
    ensures var b, n := CreateOrder(a, providerOrderId, now).0, |a.payments|;
      && CreateOrder(a, providerOrderId, now).1 == Opened(n)
      && b == a.(payments := b.payments) && |b.payments| == n + 1
      && b.payments[n] == FeePayment(providerOrderId, TotalDue(a), "INR", Created, None, now, now + 3_600_000, None, 0)
      && forall i :: 0 <= i < n ==>
           b.payments[i] == a.payments[i].(status := if a.payments[i].status in {Created, Attempted, Failed} then Expired else a.payments[i].status)
  {
    hide TotalDue;
  }

  /** The sweep expires exactly the open orders past their hour. */
  lemma StaleOrdersExpire(a: Account, now: int, i: nat)
    requires i < |a.payments|
    ensures var b := ExpireStale(a, now);
      && b == a.(payments := b.payments) && |b.payments| == |a.payments|
      && (b.payments[i] != a.payments[i] <==> a.payments[i].status in {Created, Attempted, Failed} && a.payments[i].expiresAt < now)
      && (b.payments[i] != a.payments[i] ==> b.payments[i] == a.payments[i].(status := Expired))
  {
  }

  // ---------- settlement ----------

  /** A statement the loop paid into, or left alone. */
  predicate Topped(s: Statement, t: Statement, now: int) {
    t == s
    || (s.paidPaise < t.paidPaise <= s.duePaise
        && t == s.(paidPaise := t.paidPaise, status := if t.paidPaise == s.duePaise then Settled else s.status,
                   settledAt := if t.paidPaise == s.duePaise then Some(now) else s.settledAt))
  }

  lemma {:induction false} AllocateTops(w: Wallet, rows: seq<nat>, paymentId: nat, now: int, i: nat)
    requires InRange(rows, |w.statements|) && DistinctRows(rows) && i < |w.statements|
    ensures Topped(w.statements[i], Allocate(w, rows, paymentId, now).statements[i], now)
    decreases |rows|
  {
    if rows != [] && w.remaining > 0 {
      TailRows(rows);
      var w1 := TakeFor(w, rows[0], paymentId, now);
      if i == rows[0] { AllocateLeaves(w1, rows[1..], paymentId, now, i); } else { AllocateTops(w1, rows[1..], paymentId, now, i); }
    }
  }

  /**
   * What an accepted settlement writes: the order is paid now by this payment, what no statement owed is its
   * prepayment, the ledger gets one entry of minus the amount, and statements are only paid into.
   */
  lemma SettlementWrites(a: Account, cfg: FeeConfig, input: SettleInput, now: int, id: nat)
    requires Inv(a) && id < |a.payments| && Settles(a.payments, id, input)
    ensures var (b, outcome) := Settle(a, cfg, input, now);
      && outcome.SettledNow?
      && b.payments == a.payments[id := a.payments[id].(
           status := Paid, providerPaymentId := Some(input.providerPaymentId), paidAt := Some(now),
           unallocatedPaise := Max(0, input.amountPaise - Sum(Outstanding(a.statements))))]
      && b.entries == a.entries + [Entry(StatementSettlement, -input.amountPaise, now, None, Some(id))]
      && b.lines == a.lines && b.overrideUntil == a.overrideUntil && |b.statements| == |a.statements|
      && forall i :: 0 <= i < |a.statements| ==> Topped(a.statements[i], b.statements[i], now)
  {
    hide LinesOk, BillsOk, AllocationsOk, PaymentsOk, SettlementsOk, JobEntriesOk, PeriodsOk, Balanced, NoPrepaidDebt;
    hide HasOverdue, UnpaidRows, Allocate, Sum, Outstanding;
    assert FindOrder(a.payments, input.providerOrderId) == Some(id);
    assert a.payments[id].amountPaise > 0 by { PaidAmountsPositive(a, id); }
    var w, rows := Wallet(a.statements, a.allocations, input.amountPaise), UnpaidRows(a.statements);
    UnpaidRowsSpec(a.statements);
    AllocateRemaining(w, rows, id, now);
    OwedIsOutstanding(a.statements);
    forall i | 0 <= i < |a.statements| ensures Topped(a.statements[i], Allocate(w, rows, id, now).statements[i], now) {
      AllocateTops(w, rows, id, now, i);
    }
  }

  lemma PaidAmountsPositive(a: Account, id: nat)
    requires PaymentsOk(a.payments, a.allocations) && id < |a.payments|
    ensures a.payments[id].amountPaise > 0
  {
  }

  /** Which answer a settlement gives, each exactly. */
  lemma SettlementDecides(a: Account, input: SettleInput, id: nat)
    requires Inv(a)
    ensures (SettleDecision(a, input).UnknownOrder? <==> forall p :: p in a.payments ==> p.providerOrderId != input.providerOrderId)
    ensures id < |a.payments| && a.payments[id].providerOrderId == input.providerOrderId ==>
      var p, outcome := a.payments[id], SettleDecision(a, input);
      var exact := p.amountPaise == input.amountPaise && p.currency == input.currency;
      && (outcome.AlreadyPaid? <==> p.status == OrderStatus.Paid && p.providerPaymentId == Some(input.providerPaymentId))
      && (outcome.Conflict? <==> p.status == OrderStatus.Paid && p.providerPaymentId != Some(input.providerPaymentId))
      && (outcome.Mismatch? <==> p.status != OrderStatus.Paid && !exact)
      && (outcome.DuplicatePaymentId? <==> p.status != OrderStatus.Paid && exact && exists q :: q in a.payments && q.providerPaymentId == Some(input.providerPaymentId))
  {
    hide LinesOk, BillsOk, AllocationsOk, PaymentsOk, SettlementsOk, JobEntriesOk, PeriodsOk, Balanced, NoPrepaidDebt, StatementsOk;
    var found := FindOrder(a.payments, input.providerOrderId);
    if found.Some? { assert a.payments[found.value] in a.payments; }
    assert forall q :: q in a.payments <==> exists i :: 0 <= i < |a.payments| && a.payments[i] == q;
    if id < |a.payments| && a.payments[id].providerOrderId == input.providerOrderId { assert found == Some(id); }
  }

  /** An attempt marks a created order only; a failure a created or attempted one; neither touches any other column. */
  lemma AttemptsMark(a: Account, id: nat)
    requires Inv(a) && id < |a.payments|
    ensures MarkAttempted(a, id)
      == if a.payments[id].status == OrderStatus.Created then a.(payments := a.payments[id := a.payments[id].(status := OrderStatus.Attempted)]) else a
    ensures MarkFailed(a, a.payments[id].providerOrderId)
      == if a.payments[id].status in {Created, Attempted} then a.(payments := a.payments[id := a.payments[id].(status := OrderStatus.Failed)]) else a
  {
    hide LinesOk, BillsOk, AllocationsOk, PaymentsOk, SettlementsOk, JobEntriesOk, PeriodsOk, Balanced, NoPrepaidDebt, StatementsOk;
    assert FindOrder(a.payments, a.payments[id].providerOrderId) == Some(id);
  }

  // ---------- posting ----------

  /** A job's first completed print appends one commission of the margin; a repeated post writes nothing. */
  lemma CommissionWrites(a: Account, jobId: string, totalPaise: nat, shopBasePaise: nat, now: int)
    ensures var b := PostCommission(a, jobId, totalPaise, shopBasePaise, now);
      if exists i :: 0 <= i < |a.entries| && a.entries[i].kind.PrintCommission? && a.entries[i].jobId == Some(jobId) then b == a
      else b == a.(entries := a.entries + [Entry(PrintCommission, Max(0, totalPaise - shopBasePaise), now, Some(jobId), None)])
  {
  }

  /** A refund appends minus the job's commission once; without a commission, or a second time, it writes nothing. */
  lemma RefundWrites(a: Account, jobId: string, now: int, i: nat)
    requires JobEntriesOk(a.entries) && i < |a.entries| && a.entries[i].kind.PrintCommission? && a.entries[i].jobId == Some(jobId)
    ensures var b := PostRefundCredit(a, jobId, now);
      if exists k :: 0 <= k < |a.entries| && a.entries[k].kind.RefundCredit? && a.entries[k].jobId == Some(jobId) then b == a
      else b == a.(entries := a.entries + [Entry(RefundCredit, -a.entries[i].amountPaise, now, Some(jobId), None)])
  {
    var c := FindJobEntry(a.entries, jobId, PrintCommission).value;
    assert c == i by { assert c < i || i < c || c == i; }
  }

  // ---------- asking the provider ----------

  /** The provider's payment counts as a capture of this order. */
  predicate Captures(order: FeePayment, p: ProviderPayment) {
    p.orderId == order.providerOrderId
    && (p.status == Captured || (p.status == Authorized && p.amountPaise == order.amountPaise && p.currency == order.currency))
  }

  predicate ExactCapture(order: FeePayment, p: ProviderPayment) {
    Captures(order, p) && p.amountPaise == order.amountPaise && p.currency == order.currency
  }

  /** The loop over the listed payments, from any of its positions. */
  lemma {:induction false} PaymentsSettleIff(a: Account, cfg: FeeConfig, id: nat, fetched: seq<ProviderPayment>, now: int, k: nat)
    requires Inv(a) && id < |a.payments| && !a.payments[id].status.Paid?
    requires k <= |fetched| && (forall j :: 0 <= j < k ==> !ExactCapture(a.payments[id], fetched[j]))
    requires k < |fetched| ==> ExactCapture(a.payments[id], fetched[k])
    ensures var (b, status) := ReconcilePayments(a, cfg, a.payments[id], fetched, now);
      if k == |fetched| then b == a && status.None?
      else if PaymentIdTaken(a.payments, fetched[k].id) then b == a && status == Some(Threw)
      else status == Some(ReportPaid)
           && b == Settle(a, cfg, SettleInput(a.payments[id].providerOrderId, fetched[k].id, a.payments[id].amountPaise, a.payments[id].currency), now).0
           && id < |b.payments| && b.payments[id].status.Paid? && b.payments[id].providerPaymentId == Some(fetched[k].id)
    decreases |fetched|
  {
    hide LinesOk, BillsOk, AllocationsOk, PaymentsOk, SettlementsOk, JobEntriesOk, PeriodsOk, Balanced, NoPrepaidDebt, StatementsOk;
    hide EvaluateBlock, Allocate, UnpaidRows;
    if fetched != [] {
      var order := a.payments[id];
      assert FindOrder(a.payments, order.providerOrderId) == Some(id);
      if k > 0 {
        assert forall j :: 0 <= j < |fetched| - 1 ==> fetched[1..][j] == fetched[j + 1];
        PaymentsSettleIff(a, cfg, id, fetched[1..], now, k - 1);
      } else if k < |fetched| && !PaymentIdTaken(a.payments, fetched[0].id) {
        SettlementWrites(a, cfg, InputFor(order, fetched[0]), now, id);
      }
    }
  }

  /**
   * Reconciling an unpaid order settles exactly when the provider lists an exact capture, and the first of
   * them is by a payment no order has; that payment settles it. A first one already used stops with an error.
   */
  lemma {:induction false} ReconcileSettlesIff(a: Account, cfg: FeeConfig, id: nat, fetched: seq<ProviderPayment>, now: int, k: nat)
    requires Inv(a) && id < |a.payments| && !a.payments[id].status.Paid?
    requires k < |fetched| && (forall j :: 0 <= j < k ==> !ExactCapture(a.payments[id], fetched[j])) && ExactCapture(a.payments[id], fetched[k])
    ensures var order := a.payments[id];
      var (b, status) := Reconcile(a, cfg, order, fetched, now);
      if PaymentIdTaken(a.payments, fetched[k].id) then b == a && status == Threw
      else status == ReportPaid
           && b == Settle(a, cfg, SettleInput(order.providerOrderId, fetched[k].id, order.amountPaise, order.currency), now).0
           && id < |b.payments| && b.payments[id].status.Paid? && b.payments[id].providerPaymentId == Some(fetched[k].id)
  {
    hide Inv, ReconcilePayments, Settle, PaymentIdTaken;
    PaymentsSettleIff(a, cfg, id, fetched, now, k);
  }

  /**
   * What reconciling answers when no exact capture is listed: failed, with the order marked so, exactly when an
   * attempt was rejected and none is captured or authorized; pending otherwise. An order seen paid is answered so at once.
   */
  lemma {:induction false} ReconcileAnswers(a: Account, cfg: FeeConfig, id: nat, fetched: seq<ProviderPayment>, now: int)
    requires Inv(a) && id < |a.payments|
    requires forall p :: p in fetched ==> !ExactCapture(a.payments[id], p)
    ensures var order := a.payments[id];
      var (b, status) := Reconcile(a, cfg, order, fetched, now);
      var rejected := (exists p :: p in fetched && p.status == AttemptRejected) && forall p :: p in fetched ==> p.status in {AttemptRejected, OtherStatus};
      && status == (if order.status == OrderStatus.Paid then ReportPaid else if rejected then ReportFailed else ReportPending)
      && b == (if status == ReportFailed && order.status in {Created, Attempted}
               then a.(payments := a.payments[id := order.(status := OrderStatus.Failed)]) else a)
  {
    hide LinesOk, BillsOk, AllocationsOk, PaymentsOk, SettlementsOk, JobEntriesOk, PeriodsOk, Balanced, NoPrepaidDebt, StatementsOk;
    hide ReconcilePayments;
    if !a.payments[id].status.Paid? {
      PaymentsSettleIff(a, cfg, id, fetched, now, |fetched|);
      assert FindOrder(a.payments, a.payments[id].providerOrderId) == Some(id);
      if p :| p in fetched && p.status == AttemptRejected {
        var k :| 0 <= k < |fetched| && fetched[k] == p;
        assert fetched[k].status.AttemptRejected?;
      }
      assert forall k :: 0 <= k < |fetched| ==> fetched[k] in fetched;
      assert forall p :: p in fetched ==> exists k :: 0 <= k < |fetched| && fetched[k] == p;
    }
  }

  // ---------- due dates and the block ----------

  /** Overdue: fee payments are on, and a payable statement is short past its due date and the grace of the configuration. */
  lemma OverdueIff(a: Account, cfg: FeeConfig, now: int)
    ensures HasOverdue(a, cfg, now) <==> cfg.enabled && exists s :: s in a.statements && PastGrace(s, cfg, now)
  {
    hide IsOverdue, PastGrace;
    forall i | 0 <= i < |a.statements| ensures IsOverdue(a.statements[i], cfg, now) <==> PastGrace(a.statements[i], cfg, now) {
      OverdueIs(a.statements[i], cfg, now);
    }
    if HasOverdue(a, cfg, now) {
      var i :| 0 <= i < |a.statements| && IsOverdue(a.statements[i], cfg, now);
      assert a.statements[i] in a.statements;
    }
  }

  lemma OverdueIs(s: Statement, cfg: FeeConfig, now: int)
    ensures IsOverdue(s, cfg, now) <==> PastGrace(s, cfg, now)
  {
    PayableIs(s.status);
    assert IsUnpaid(s) <==> s.status in {Frozen, NoticeSent, DebitPending, DebitFailed, Paused};
  }

  lemma PayableIs(status: StatementStatus)
    ensures status !in {StatementStatus.Draft, StatementStatus.Settled} <==> status in {Frozen, NoticeSent, DebitPending, DebitFailed, Paused}
  {
    match status
    case _ =>
  }

  predicate PastGrace(s: Statement, cfg: FeeConfig, now: int) {
    s.status !in {StatementStatus.Draft, StatementStatus.Settled} && 0 < s.duePaise && s.paidPaise < s.duePaise
    && s.dueAt.Some? && s.dueAt.value + cfg.blockAfterDays * DAY_MS <= now
  }

  /**
   * What an evaluation writes: with something overdue and no override to a later time, a blocked shop keeps the instant it
   * was blocked at and an open one is blocked now; otherwise the shop is open. A lift opens a blocked shop for its days.
   */
  lemma EvaluationWrites(a: Account, cfg: FeeConfig, now: int, days: nat)
    ensures EvaluateBlock(a, cfg, now)
      == a.(blockedAt := if HasOverdue(a, cfg, now) && (a.overrideUntil == None || a.overrideUntil.value <= now)
                         then (if a.blockedAt.Some? then a.blockedAt else Some(now)) else None)
    ensures LiftBlock(a, days, now)
      == if a.blockedAt == None then a else a.(blockedAt := None, overrideUntil := Some(now + days * DAY_MS))
  {
    hide HasOverdue;
  }

  /** The account view asks what each payable or settled statement is short of, nothing for a draft or a credit. */
  lemma AccountShows(s: Statement)
    ensures ShownDue(s) == if s.status != Draft && 0 < s.duePaise && s.paidPaise < s.duePaise then s.duePaise - s.paidPaise else 0
  {
  }

  /** Once fee payments are on, exactly the short statements without a due date get one, the full terms from now. */
  lemma AdoptionWrites(a: Account, cfg: FeeConfig, now: int, i: nat)
    requires StatementsOk(a.statements) && i < |a.statements|
    ensures var b, s := Adopt(a, cfg, now), a.statements[i];
      && b == a.(statements := b.statements) && |b.statements| == |a.statements|
      && b.statements[i] == s.(dueAt := if cfg.enabled && s.paidPaise < s.duePaise && s.dueAt.None?
                                        then Some(now + cfg.termsDays * DAY_MS) else s.dueAt)
  {
    assert StatementOk(a.statements[i]);
  }

  /** Every due date is at least the terms after the freeze, and no statement is from the future. */
  predicate DatesOk(a: Account, termsDays: nat, now: int) {
    forall i :: 0 <= i < |a.statements| ==>
      a.statements[i].frozenAt <= now
      && (a.statements[i].dueAt.Some? ==> a.statements[i].frozenAt + termsDays * DAY_MS <= a.statements[i].dueAt.value)
  }

  /** An event under the configuration of its moment: fee payments may be switched on and off. */
  datatype Switched = Switched(event: Event, enabled: bool, now: int)

  function RunSwitched(events: seq<Switched>, termsDays: nat, blockAfterDays: nat): Account {
    if events == [] then EmptyAccount
    else
      var last := events[|events| - 1];
      Apply(RunSwitched(events[..|events| - 1], termsDays, blockAfterDays), FeeConfig(last.enabled, termsDays, blockAfterDays), last.event, last.now)
  }

  predicate ClockForward(events: seq<Switched>) { forall j, k :: 0 <= j < k < |events| ==> events[j].now <= events[k].now }

  lemma {:induction false} SwitchedIsOk(events: seq<Switched>, termsDays: nat, blockAfterDays: nat)
    ensures Inv(RunSwitched(events, termsDays, blockAfterDays))
  {
    hide Inv, Apply;
    if events == [] {
      EmptyIsOk();
    } else {
      var front, last := events[..|events| - 1], events[|events| - 1];
      SwitchedIsOk(front, termsDays, blockAfterDays);
      ApplyKeepsInv(RunSwitched(front, termsDays, blockAfterDays), FeeConfig(last.enabled, termsDays, blockAfterDays), last.event, last.now);
    }
  }

  lemma ApplyKeepsDates(a: Account, cfg: FeeConfig, e: Event, now: int)
    requires Inv(a) && DatesOk(a, cfg.termsDays, now)
    ensures DatesOk(Apply(a, cfg, e, now), cfg.termsDays, now)
    ensures var b := Apply(a, cfg, e, now);
      |a.statements| <= |b.statements| && forall i :: 0 <= i < |a.statements| ==> b.statements[i].frozenAt == a.statements[i].frozenAt
  {
    hide LinesOk, BillsOk, AllocationsOk, SettlementsOk, OrdersOk, JobEntriesOk, PeriodsOk, Balanced, NoPrepaidDebt, PaymentsOk, StatementsOk;
    hide Freeze, CreateOrder, HasOverdue, Allocate, UnpaidRows, TotalDue;
    match e
    case PeriodFrozen(start, end) => FreezeKeepsDates(a, cfg, start, end, now);
    case WeekFrozen => var p := StatementPeriod.LastCompletedWeek(now); FreezeKeepsDates(a, cfg, p.start, p.end, now);
    case OrderRequested(id) => OrderKeepsStatements(a, id, now);
    case PaymentSettled(input) =>
      if SettleDecision(a, input).SettledNow? {
        var id := FindOrder(a.payments, input.providerOrderId).value;
        var w, rows := Wallet(a.statements, a.allocations, a.payments[id].amountPaise), UnpaidRows(a.statements);
        UnpaidRowsSpec(a.statements);
        forall i | 0 <= i < |a.statements| ensures Topped(a.statements[i], Allocate(w, rows, id, now).statements[i], now) {
          AllocateTops(w, rows, id, now, i);
        }
      }
    case _ =>
  }

  lemma FreezeKeepsDates(a: Account, cfg: FeeConfig, start: int, end: int, now: int)
    requires Inv(a) && DatesOk(a, cfg.termsDays, now)
    ensures var b := Freeze(a, cfg, start, end, now).0;
      DatesOk(b, cfg.termsDays, now) && |a.statements| <= |b.statements| && b.statements[..|a.statements|] == a.statements
  {
    hide Inv, Freeze;
    var (b, outcome) := Freeze(a, cfg, start, end, now);
    if outcome.FrozenNow? {
      FrozenStatementCarries(a, cfg, start, end, now);
      assert forall i :: 0 <= i < |a.statements| ==> b.statements[i] == b.statements[..|a.statements|][i];
    } else {
      RefusedFreezeChangesNothing(a, cfg, start, end, now);
    }
  }

  /**
   * However fee payments are switched on and off, a shop is blocked no earlier than the payment terms plus the
   * overdue grace after some statement of it was frozen.
   */
  lemma {:induction false} BlockComesAfterTerms(events: seq<Switched>, termsDays: nat, blockAfterDays: nat, now: int)
    requires ClockForward(events) && (events != [] ==> events[|events| - 1].now <= now)
    ensures var a := RunSwitched(events, termsDays, blockAfterDays);
      && DatesOk(a, termsDays, now)
      && (a.blockedAt.Some? ==>
            exists i :: 0 <= i < |a.statements| && a.statements[i].frozenAt + (termsDays + blockAfterDays) * DAY_MS <= a.blockedAt.value)
  {
    hide Apply, Inv;
    if events != [] {
      var front, last := events[..|events| - 1], events[|events| - 1];
      var cfg := FeeConfig(last.enabled, termsDays, blockAfterDays);
      var before, a := RunSwitched(front, termsDays, blockAfterDays), RunSwitched(events, termsDays, blockAfterDays);
      BlockComesAfterTerms(front, termsDays, blockAfterDays, last.now);
      SwitchedIsOk(front, termsDays, blockAfterDays);
      ApplyKeepsDates(before, cfg, last.event, last.now);
      FlagSetByEvaluation(before, cfg, last.event, last.now);
      if a.blockedAt.Some? && a.blockedAt == before.blockedAt {
        var i :| 0 <= i < |before.statements| && before.statements[i].frozenAt + (termsDays + blockAfterDays) * DAY_MS <= before.blockedAt.value;
        assert a.statements[i].frozenAt == before.statements[i].frozenAt;
      } else if a.blockedAt.Some? {
        var i :| 0 <= i < |a.statements| && IsOverdue(a.statements[i], cfg, last.now);
        assert a.statements[i].frozenAt + (termsDays + blockAfterDays) * DAY_MS <= last.now;
      }
    }
  }
}
