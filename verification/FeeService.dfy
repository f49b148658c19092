/** The fee transactions as the service runs them: loops over rows, updated in place. */
module FeeService {
  import opened Options
  import opened Numbers
  import opened Commission
  import opened Sums
  import opened RowOrder
  import opened FeeLedger
  import opened FeeAllocation
  import opened FeeInvariant

  lemma PrefixGross(amounts: seq<int>, i: nat)
    requires i <= |amounts|
    ensures Gross(amounts[..i]) <= Gross(amounts)
    ensures Gross(Negated(amounts[..i])) <= Gross(Negated(amounts))
    ensures i < |amounts| ==> Gross(amounts[..i + 1]) == Gross(amounts[..i]) + Max(0, amounts[i])
    ensures i < |amounts| ==> Gross(Negated(amounts[..i + 1])) == Gross(Negated(amounts[..i])) + Max(0, -amounts[i])
  {
    hide Sum;
    assert amounts == amounts[..i] + amounts[i..];
    assert Positives(amounts) == Positives(amounts[..i]) + Positives(amounts[i..]);
    SumAppend(Positives(amounts[..i]), Positives(amounts[i..]));
    SumBounds(Positives(amounts[i..]));
    assert Positives(Negated(amounts)) == Positives(Negated(amounts[..i])) + Positives(Negated(amounts[i..]));
    SumAppend(Positives(Negated(amounts[..i])), Positives(Negated(amounts[i..])));
    SumBounds(Positives(Negated(amounts[i..])));
    if i < |amounts| {
      assert Positives(amounts[..i + 1])[..i] == Positives(amounts[..i]);
      assert Positives(Negated(amounts[..i + 1]))[..i] == Positives(Negated(amounts[..i]));
      SumLast(Positives(amounts[..i + 1]));
      SumLast(Positives(Negated(amounts[..i + 1])));
    }
  }

  lemma SumLast(column: seq<int>)
    requires column != []
    ensures Sum(column) == Sum(column[..|column| - 1]) + column[|column| - 1]
  {
  }

  /** `deriveStatementAmounts`: two running totals; None is the RangeError of an unsafe total. */
  method SumStatement(amounts: seq<int>) returns (r: Option<StatementAmounts>)
    ensures r == DeriveStatementAmounts(amounts)
  {
    var gross, credit := 0, 0;
    for i := 0 to |amounts|
      invariant gross == Gross(amounts[..i]) && credit == Gross(Negated(amounts[..i]))
      invariant gross <= MAX_SAFE_INTEGER && credit <= MAX_SAFE_INTEGER
    {
      PrefixGross(amounts, i);
      if amounts[i] >= 0 { gross := gross + amounts[i]; } else { credit := credit + -amounts[i]; }
      if gross > MAX_SAFE_INTEGER || credit > MAX_SAFE_INTEGER {
        PrefixGross(amounts, i + 1);
        return None;
      }
    }
    assert amounts[..|amounts|] == amounts;
    return Some(StatementAmounts(gross, credit, Max(0, gross - credit)));
  }

  /** What the provider reports about one payment attempt on an order. */
  datatype ProviderStatus = Captured | Authorized | AttemptRejected | OtherStatus
  datatype ProviderPayment = ProviderPayment(
    id: string, orderId: string, status: ProviderStatus, amountPaise: int, currency: string)

  datatype ReconcileStatus = ReportPaid | ReportPending | ReportFailed | Threw

  predicate CountsAsCaptured(order: FeePayment, p: ProviderPayment) {
    p.orderId == order.providerOrderId
    && (p.status.Captured? || (p.status.Authorized? && p.amountPaise == order.amountPaise && p.currency == order.currency))
  }

  function InputFor(order: FeePayment, p: ProviderPayment): SettleInput {
    SettleInput(order.providerOrderId, p.id, p.amountPaise, p.currency)
  }

  /** Settle from the first captured payment that is accepted; the rest is not looked at. */
  function ReconcilePayments(
    a: Account, cfg: FeeConfig, order: FeePayment, fetched: seq<ProviderPayment>, now: int): (Account, Option<ReconcileStatus>)
  {
    if fetched == [] then (a, None)
    else if !CountsAsCaptured(order, fetched[0]) then ReconcilePayments(a, cfg, order, fetched[1..], now)
    else
      var (b, outcome) := Settle(a, cfg, InputFor(order, fetched[0]), now);
      if outcome.SettledNow? || outcome.AlreadyPaid? then (b, Some(ReportPaid))
      else if outcome.DuplicatePaymentId? then (b, Some(Threw))
      else ReconcilePayments(b, cfg, order, fetched[1..], now)
  }

  predicate AllRejected(fetched: seq<ProviderPayment>) {
    (exists k :: 0 <= k < |fetched| && fetched[k].status.AttemptRejected?)
    && !exists k :: 0 <= k < |fetched| && (fetched[k].status.Captured? || fetched[k].status.Authorized?)
  }

  /** `reconcileFeeOrder` on a possibly stale copy of the order. */
  function Reconcile(
    a: Account, cfg: FeeConfig, order: FeePayment, fetched: seq<ProviderPayment>, now: int): (Account, ReconcileStatus)
  {
    if order.status.Paid? then (a, ReportPaid)
    else
      var (b, decided) := ReconcilePayments(a, cfg, order, fetched, now);
      if decided.Some? then (b, decided.value)
      else if AllRejected(fetched) then (MarkFailed(b, order.providerOrderId), ReportFailed)
      else (b, ReportPending)
  }

  predicate SettlesFrom(a: Account, b: Account, cfg: FeeConfig, order: FeePayment, p: ProviderPayment, now: int) {
    CountsAsCaptured(order, p) && SettleDecision(a, InputFor(order, p)).SettledNow?
    && b == Settle(a, cfg, InputFor(order, p), now).0
  }

  /** One reconciliation keeps the invariant and moves the balance by at most this order's amount, once. */
  lemma {:induction false} ReconcileSettlesOnce(
    a: Account, cfg: FeeConfig, order: FeePayment, fetched: seq<ProviderPayment>, now: int)
    requires Inv(a)
    ensures var (b, status) := ReconcilePayments(a, cfg, order, fetched, now);
      && Inv(b)
      && (b == a || (status == Some(ReportPaid)
            && exists k :: 0 <= k < |fetched| && SettlesFrom(a, b, cfg, order, fetched[k], now)))
    decreases |fetched|
  {
    hide Inv, Settle, SettleDecision;
    if fetched != [] {
      var (b, status) := ReconcilePayments(a, cfg, order, fetched, now);
      if CountsAsCaptured(order, fetched[0]) {
        var input := InputFor(order, fetched[0]);
        SettleKeepsInv(a, cfg, input, now);
        SettleCases(a, cfg, input, now);
        if SettleDecision(a, input).SettledNow? {
          assert SettlesFrom(a, b, cfg, order, fetched[0], now);
        } else {
          ReconcileSettlesOnce(a, cfg, order, fetched[1..], now);
          ReconcileWitness(a, cfg, order, fetched, now);
        }
      } else {
        ReconcileSettlesOnce(a, cfg, order, fetched[1..], now);
        ReconcileWitness(a, cfg, order, fetched, now);
      }
    }
  }

  lemma SettleCases(a: Account, cfg: FeeConfig, input: SettleInput, now: int)
    ensures var (b, outcome) := Settle(a, cfg, input, now);
      outcome == SettleDecision(a, input) && (!outcome.SettledNow? ==> b == a)
  {
  }

  lemma ReconcileWitness(a: Account, cfg: FeeConfig, order: FeePayment, fetched: seq<ProviderPayment>, now: int)
    requires fetched != []
    ensures forall k :: 0 <= k < |fetched[1..]| ==> fetched[1..][k] == fetched[k + 1]
  {
  }

  /** When reconciliation reports the order paid, the order is paid. */
  lemma ReportedPaidIsPaid(a: Account, cfg: FeeConfig, order: FeePayment, fetched: seq<ProviderPayment>, now: int)
    requires Inv(a) && !order.status.Paid?
    requires Reconcile(a, cfg, order, fetched, now).1.ReportPaid?
    ensures var b := Reconcile(a, cfg, order, fetched, now).0;
      exists i :: 0 <= i < |b.payments| && b.payments[i].providerOrderId == order.providerOrderId && b.payments[i].status.Paid?
  {
    ReportedPaidHelper(a, cfg, order, fetched, now);
  }

  lemma {:induction false} ReportedPaidHelper(a: Account, cfg: FeeConfig, order: FeePayment, fetched: seq<ProviderPayment>, now: int)
    requires ReconcilePayments(a, cfg, order, fetched, now).1 == Some(ReportPaid)
    ensures var b := ReconcilePayments(a, cfg, order, fetched, now).0;
      exists i :: 0 <= i < |b.payments| && b.payments[i].providerOrderId == order.providerOrderId && b.payments[i].status.Paid?
    decreases |fetched|
  {
    hide EvaluateBlock;
    if CountsAsCaptured(order, fetched[0]) {
      var (b, outcome) := Settle(a, cfg, InputFor(order, fetched[0]), now);
      if outcome.SettledNow? || outcome.AlreadyPaid? {
        SettledOrderIsPaid(a, cfg, InputFor(order, fetched[0]), now);
      } else {
        SettleCases(a, cfg, InputFor(order, fetched[0]), now);
        ReportedPaidHelper(b, cfg, order, fetched[1..], now);
      }
    } else {
      ReportedPaidHelper(a, cfg, order, fetched[1..], now);
    }
  }

  lemma SettledOrderIsPaid(a: Account, cfg: FeeConfig, input: SettleInput, now: int)
    requires SettleDecision(a, input).SettledNow? || SettleDecision(a, input).AlreadyPaid?
    ensures var b := Settle(a, cfg, input, now).0;
      var i := FindOrder(a.payments, input.providerOrderId);
      i.Some? && i.value < |b.payments|
      && b.payments[i.value].providerOrderId == input.providerOrderId && b.payments[i.value].status.Paid?
  {
  }

  /** The columns of a job row the commission and refund transactions test; the refund also writes two of them. */
  datatype PrintedJob = PrintedJob(
    payAtShop: bool, paid: bool, counterConfirmed: bool, printConfirmed: bool, printed: bool, refunded: bool,
    totalPaise: nat, shopBasePaise: nat)

  class FeeTables {
    const cfg: FeeConfig
    var entries: seq<Entry>
    var lines: seq<Line>
    var statements: seq<Statement>
    var payments: seq<FeePayment>
    var allocations: seq<Allocation>
    var blockedAt: Option<int>
    var overrideUntil: Option<int>

    constructor (cfg: FeeConfig)
      ensures Rows() == EmptyAccount && this.cfg == cfg
    {
      this.cfg := cfg;
      entries, lines, statements, payments, allocations := [], [], [], [], [];
      blockedAt, overrideUntil := None, None;
    }

    function Rows(): Account
      reads this
    {
      Account(entries, lines, statements, payments, allocations, blockedAt, overrideUntil)
    }

    method PostVerifiedPrintCommission(jobId: string, job: PrintedJob, now: int)
      modifies this`entries
      ensures Rows() == if job.payAtShop && job.paid && job.counterConfirmed && job.printConfirmed && job.printed
                        then PostCommission(old(Rows()), jobId, job.totalPaise, job.shopBasePaise, now) else old(Rows())
    {
      if !job.payAtShop || !job.paid || !job.counterConfirmed || !job.printConfirmed || !job.printed { return; }
      if FindJobEntry(entries, jobId, PrintCommission).None? {
        entries := entries + [Entry(PrintCommission, CommissionFor(job.totalPaise, job.shopBasePaise), now, Some(jobId), None)];
      }
    }

    /** Reverses the commission and marks the job refunded, or refuses and writes nothing. */
    method ConfirmCounterRefund(jobId: string, job: PrintedJob, now: int) returns (ok: bool, after: PrintedJob)
      modifies this`entries
      ensures ok <==> job.payAtShop && job.paid && job.counterConfirmed && job.printConfirmed && job.printed && !job.refunded && FindJobEntry(old(entries), jobId, PrintCommission).Some?
                      && FindJobEntry(old(entries), jobId, RefundCredit).None?
      ensures Rows() == if ok then PostRefundCredit(old(Rows()), jobId, now) else old(Rows())
      ensures after == if ok then job.(paid := false, refunded := true) else job
    {
      after, ok := job, false;
      if !job.payAtShop || !job.paid || !job.counterConfirmed { return; }
      if !job.printConfirmed || !job.printed || job.refunded { return; }
      var commission := FindJobEntry(entries, jobId, PrintCommission);
      if commission.None? || FindJobEntry(entries, jobId, RefundCredit).Some? { return; }
      after := job.(paid := false, refunded := true);
      entries := entries + [Entry(RefundCredit, -entries[commission.value].amountPaise, now, Some(jobId), None)];
      ok := true;
    }

    /** Oldest prepayment first, until the statement is covered. */
    method ApplyPrepaidToStatement(statementId: nat, duePaise: int) returns (applied: int)
      modifies this`payments, this`allocations
      ensures var d := DrawAll(Draw(old(payments), old(allocations), duePaise, 0), PrepaidRows(old(payments)), statementId);
        payments == d.payments && allocations == d.allocations && applied == d.applied
    {
      var remaining := duePaise;
      applied := 0;
      if remaining <= 0 { return; }
      var rows := PrepaidRows(payments);
      var i := 0;
      while i < |rows| && remaining > 0
        invariant 0 <= i <= |rows| && |payments| == |old(payments)|
        invariant DrawAll(Draw(payments, allocations, remaining, applied), rows[i..], statementId)
               == DrawAll(Draw(old(payments), old(allocations), duePaise, 0), rows, statementId)
      {
        var payment := payments[rows[i]];
        var take := Min(remaining, payment.unallocatedPaise);
        assert rows[i..][1..] == rows[i + 1..];
        payments := payments[rows[i] := payment.(unallocatedPaise := payment.unallocatedPaise - take)];
        allocations := allocations + [Allocation(rows[i], statementId, take)];
        remaining := remaining - take;
        applied := applied + take;
        i := i + 1;
      }
    }

    method FreezeWeeklyCommissionStatement(start: int, end: int, now: int) returns (outcome: FreezeOutcome)
      modifies this`lines, this`statements, this`payments, this`allocations
      ensures (Rows(), outcome) == Freeze(old(Rows()), cfg, start, end, now)
    {
      if end <= start { return BadPeriod; }
      var existing := FindPeriod(statements, start, end);
      if existing.Some? { return AlreadyFrozen(existing.value); }
      var rows := FreezeRows(Rows(), end);
      if rows == [] { return NothingToFreeze; }
      var derived := SumStatement(At(Amounts(entries), rows));
      if derived.None? { return UnsafeTotal; }
      var amounts := derived.value;
      if amounts.creditPaise > amounts.grossPaise { return SurplusCredit; }
      var statementId := |statements|;
      var added := NewLines(Rows(), rows);
      lines := lines + added;
      statements := statements + [NewStatement(cfg, start, end, amounts, 0, now)];
      var prepaid := ApplyPrepaidToStatement(statementId, amounts.duePaise);
      if prepaid == 0 { return FrozenNow(statementId); }
      var fullyPaid := prepaid >= amounts.duePaise;
      var statement := statements[statementId].(paidPaise := prepaid);
      statements := statements[statementId := if fullyPaid then statement.(status := Settled, settledAt := Some(now)) else statement];
      assert statements == old(statements) + [NewStatement(cfg, start, end, amounts, prepaid, now)];
      return FrozenNow(statementId);
    }

    /** The locked transaction of `createFeeOrder`; `providerOrderId` is the provider's answer. */
    method CreateFeeOrder(providerOrderId: string, now: int) returns (outcome: OrderOutcome)
      modifies this`payments
      ensures (Rows(), outcome) == CreateOrder(old(Rows()), providerOrderId, now)
    {
      var amountPaise := TotalDue(Rows());
      if amountPaise <= 0 { return NothingDue; }
      var reusable := FindReusable(payments, amountPaise, now);
      if reusable.Some? { return Reused(reusable.value); }
      if FindOrder(payments, providerOrderId).Some? { return DuplicateOrderId; }
      var id := |payments|;
      payments := ExpireWhere(payments, None);
      payments := payments + [FeePayment(providerOrderId, amountPaise, "INR", Created, None, now, now + FEE_ORDER_TTL_MS, None, 0)];
      return Opened(id);
    }

    method EvaluateShopFeeBlock(now: int)
      modifies this`blockedAt
      ensures Rows() == EvaluateBlock(old(Rows()), cfg, now)
    {
      var overdue, overrideActive := HasOverdue(Rows(), cfg, now), OverrideActive(Rows(), now);
      if overdue && !overrideActive && blockedAt.None? {
        blockedAt := Some(now);
      } else if (!overdue || overrideActive) && blockedAt.Some? {
        blockedAt := None;
      }
    }

    method LiftFeeBlock(days: nat, now: int)
      modifies this`blockedAt, this`overrideUntil
      ensures Rows() == LiftBlock(old(Rows()), days, now)
    {
      if blockedAt.Some? { blockedAt, overrideUntil := None, Some(now + days * DAY_MS); }
    }

    /** One verified payment: statements oldest first, one ledger entry, the rest kept as prepayment. */
    method SettleFeePayment(input: SettleInput, now: int) returns (outcome: SettleOutcome)
      modifies this`statements, this`allocations, this`entries, this`payments, this`blockedAt
      ensures (Rows(), outcome) == Settle(old(Rows()), cfg, input, now)
    {
      hide UnpaidRows, HasOverdue, OverrideActive;
      outcome := SettleDecision(Rows(), input);
      if !outcome.SettledNow? { return; }
      var id := FindOrder(payments, input.providerOrderId).value;
      var payment := payments[id];
      var remaining := payment.amountPaise;
      var rows := UnpaidRows(statements);
      var i := 0;
      while i < |rows| && remaining > 0
        invariant 0 <= i <= |rows| && |statements| == |old(statements)|
        invariant Allocate(Wallet(statements, allocations, remaining), rows[i..], id, now)
               == Allocate(Wallet(old(statements), old(allocations), payment.amountPaise), rows, id, now)
        invariant payments == old(payments) && entries == old(entries) && blockedAt == old(blockedAt)
      {
        var statement := statements[rows[i]];
        var outstanding := statement.duePaise - statement.paidPaise;
        assert rows[i..][1..] == rows[i + 1..];
        if outstanding > 0 {
          var take := Min(outstanding, remaining);
          var paid := statement.(paidPaise := statement.paidPaise + take);
          statements := statements[rows[i] := if take == outstanding then paid.(status := Settled, settledAt := Some(now)) else paid];
          allocations := allocations + [Allocation(id, rows[i], take)];
          remaining := remaining - take;
        }
        i := i + 1;
      }
      entries := entries + [Entry(StatementSettlement, -payment.amountPaise, now, None, Some(id))];
      payments := payments[id := payment.(status := Paid, providerPaymentId := Some(input.providerPaymentId),
                                          paidAt := Some(now), unallocatedPaise := remaining)];
      EvaluateShopFeeBlock(now);
    }

    method MarkFeeAttemptFailed(providerOrderId: string) returns (marked: bool)
      modifies this`payments
      ensures Rows() == MarkFailed(old(Rows()), providerOrderId) && marked == (Rows() != old(Rows()))
    {
      var found := FindOrder(payments, providerOrderId);
      marked := found.Some? && payments[found.value].status in {Created, Attempted};
      if marked {
        var id := found.value;
        payments := payments[id := payments[id].(status := Failed)];
        assert payments[id] != old(payments)[id];
      }
    }

    method MarkCheckoutAttempted(paymentId: nat)
      modifies this`payments
      ensures Rows() == MarkAttempted(old(Rows()), paymentId)
    {
      if paymentId < |payments| && payments[paymentId].status.Created? {
        payments := payments[paymentId := payments[paymentId].(status := Attempted)];
      }
    }

    /** Ask the provider about one order and settle from its first acceptable capture. */
    method ReconcileFeeOrder(order: FeePayment, fetched: seq<ProviderPayment>, now: int) returns (status: ReconcileStatus)
      modifies this`statements, this`allocations, this`entries, this`payments, this`blockedAt
      ensures (Rows(), status) == Reconcile(old(Rows()), cfg, order, fetched, now)
    {
      if order.status.Paid? { return ReportPaid; }
      for k := 0 to |fetched|
        invariant ReconcilePayments(Rows(), cfg, order, fetched[k..], now)
               == ReconcilePayments(old(Rows()), cfg, order, fetched, now)
      {
        assert fetched[k..][1..] == fetched[k + 1..];
        if CountsAsCaptured(order, fetched[k]) {
          var outcome := SettleFeePayment(InputFor(order, fetched[k]), now);
          if outcome.SettledNow? || outcome.AlreadyPaid? { return ReportPaid; }
          if outcome.DuplicatePaymentId? { return Threw; }
        }
      }
      if AllRejected(fetched) {
        var marked := MarkFeeAttemptFailed(order.providerOrderId);
        return ReportFailed;
      }
      return ReportPending;
    }
  }
}
