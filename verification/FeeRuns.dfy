/** The fee ledger over whole runs: any interleaving of posts, refunds, freezes, orders and settlements. */
module FeeRuns {
  import opened Options
  import opened Numbers
  import opened Commission
  import opened Sums
  import opened RowOrder
  import opened FeeLedger
  import opened FeeAllocation
  import opened FeeInvariant
  import StatementPeriod

  datatype Event =
    | PrintConfirmed(jobId: string, totalPaise: nat, shopBasePaise: nat)
    | RefundConfirmed(jobId: string)
    | ManualCreditPosted(creditPaise: int)
    | PeriodFrozen(start: int, end: int)
    | WeekFrozen
    | OrderRequested(providerOrderId: string)
    | PaymentSettled(input: SettleInput)
    | AttemptFailed(failedOrderId: string)
    | AttemptMade(paymentId: nat)
    | StaleExpired
    | BlockEvaluated
    | BlockLifted(days: nat)
    | DueDatesAdopted

  function Apply(a: Account, cfg: FeeConfig, e: Event, now: int): Account {
    match e
    case PrintConfirmed(jobId, total, base) => PostCommission(a, jobId, total, base, now)
    case RefundConfirmed(jobId) => PostRefundCredit(a, jobId, now)
    case ManualCreditPosted(amount) => PostManualCredit(a, amount, now)
    case PeriodFrozen(start, end) => Freeze(a, cfg, start, end, now).0
    case WeekFrozen => var p := StatementPeriod.LastCompletedWeek(now); Freeze(a, cfg, p.start, p.end, now).0
    case OrderRequested(id) => CreateOrder(a, id, now).0
    case PaymentSettled(input) => Settle(a, cfg, input, now).0
    case AttemptFailed(id) => MarkFailed(a, id)
    case AttemptMade(id) => MarkAttempted(a, id)
    case StaleExpired => ExpireStale(a, now)
    case BlockEvaluated => EvaluateBlock(a, cfg, now)
    case BlockLifted(days) => LiftBlock(a, days, now)
    case DueDatesAdopted => Adopt(a, cfg, now)
  }

  datatype TimedEvent = TimedEvent(event: Event, now: int)

  function Run(a: Account, cfg: FeeConfig, events: seq<TimedEvent>): Account {
    if events == [] then a
    else
      var last := |events| - 1;
      Apply(Run(a, cfg, events[..last]), cfg, events[last].event, events[last].now)
  }

  // ---------- the invariant on every reachable state ----------

  lemma ApplyKeepsInv(a: Account, cfg: FeeConfig, e: Event, now: int)
    requires Inv(a)
    ensures Inv(Apply(a, cfg, e, now))
  {
    hide Inv, PostCommission, PostRefundCredit, PostManualCredit, Freeze, CreateOrder, Settle, MarkFailed, MarkAttempted, ExpireStale, EvaluateBlock, LiftBlock, Adopt;
    match e
    case PrintConfirmed(jobId, total, base) => PostKeepsInv(a, jobId, total, base, 0, now);
    case RefundConfirmed(jobId) => PostKeepsInv(a, jobId, 0, 0, 0, now);
    case ManualCreditPosted(amount) => PostKeepsInv(a, "", 0, 0, amount, now);
    case PeriodFrozen(start, end) => FreezeKeepsInv(a, cfg, start, end, now);
    case WeekFrozen => var p := StatementPeriod.LastCompletedWeek(now); FreezeKeepsInv(a, cfg, p.start, p.end, now);
    case OrderRequested(id) => CreateOrderKeepsInv(a, id, now);
    case PaymentSettled(input) => SettleKeepsInv(a, cfg, input, now);
    case AttemptFailed(id) => MarkKeepsInv(a, id, 0);
    case AttemptMade(id) => MarkKeepsInv(a, "", id);
    case StaleExpired => ExpireKeepsInv(a, now);
    case BlockEvaluated => EvaluateKeepsInv(a, cfg, now);
    case BlockLifted(days) => LiftKeepsInv(a, days, now);
    case DueDatesAdopted => AdoptKeepsInv(a, cfg, now);
  }

  lemma LiftKeepsInv(a: Account, days: nat, now: int)
    requires Inv(a)
    ensures Inv(LiftBlock(a, days, now))
  {
  }

  lemma PostKeepsInv(a: Account, jobId: string, total: nat, base: nat, credit: int, now: int)
    requires Inv(a)
    ensures Inv(PostCommission(a, jobId, total, base, now))
    ensures Inv(PostRefundCredit(a, jobId, now))
    ensures Inv(PostManualCredit(a, credit, now))
  {
    hide Inv;
    if FindJobEntry(a.entries, jobId, PrintCommission).None? {
      AppendOpenEntry(a, Entry(PrintCommission, CommissionFor(total, base), now, Some(jobId), None));
    } else if FindJobEntry(a.entries, jobId, RefundCredit).None? {
      var c := FindJobEntry(a.entries, jobId, PrintCommission).value;
      AppendOpenEntry(a, Entry(RefundCredit, -a.entries[c].amountPaise, now, Some(jobId), None));
    }
    AppendOpenEntry(a, Entry(ManualCredit, credit, now, None, None));
  }

  lemma EmptyIsOk()
    ensures Inv(EmptyAccount)
  {
    hide LinesOk, StatementsOk, BillsOk, AllocationsOk, PaymentsOk, SettlementsOk, OrdersOk, JobEntriesOk, PeriodsOk, Balanced, NoPrepaidDebt;
    EmptyRowsAreOk();
    EmptyBooksAreOk();
    EmptyIsBalanced();
  }

  lemma EmptyRowsAreOk()
    ensures LinesOk(EmptyAccount.entries, EmptyAccount.lines, EmptyAccount.statements)
    ensures StatementsOk(EmptyAccount.statements) && PeriodsOk(EmptyAccount.statements) && JobEntriesOk(EmptyAccount.entries)
    ensures OrdersOk(EmptyAccount.payments) && SettlementsOk(EmptyAccount.entries, EmptyAccount.payments)
  {
  }

  lemma EmptyBooksAreOk()
    ensures BillsOk(EmptyAccount.lines, EmptyAccount.statements, EmptyAccount.allocations)
    ensures AllocationsOk(EmptyAccount.statements, EmptyAccount.payments, EmptyAccount.allocations)
    ensures PaymentsOk(EmptyAccount.payments, EmptyAccount.allocations)
  {
  }

  lemma EmptyIsBalanced()
    ensures Balanced(EmptyAccount) && NoPrepaidDebt(EmptyAccount)
  {
    assert Amounts([]) == [] && Outstanding([]) == [] && OpenAmounts([], []) == [] && Unallocated([]) == [];
  }

  /** Every reachable state satisfies the invariant. */
  lemma {:induction false} ReachableIsOk(cfg: FeeConfig, events: seq<TimedEvent>)
    ensures Inv(Run(EmptyAccount, cfg, events))
  {
    hide Inv, Apply;
    if events == [] {
      EmptyIsOk();
    } else {
      var last := |events| - 1;
      ReachableIsOk(cfg, events[..last]);
      ApplyKeepsInv(Run(EmptyAccount, cfg, events[..last]), cfg, events[last].event, events[last].now);
    }
  }

  // ---------- what is owed, three ways ----------

  lemma DueIsOutstanding(statements: seq<Statement>)
    requires StatementsOk(statements)
    ensures StatementsDue(statements) == Sum(Outstanding(statements))
  {
    assert ShownDues(statements) == Outstanding(statements);
  }

  /**
   * On every reachable state the ledger balance equals the debt on statements plus open entries
   * minus prepayment, so the amount asked exceeds the balance by exactly the surplus prepayment.
   */
  lemma {:induction false} LedgerIdentity(cfg: FeeConfig, events: seq<TimedEvent>)
    ensures var a := Run(EmptyAccount, cfg, events);
      && OpenBalance(a) == StatementsDue(a.statements) + Sum(OpenAmounts(a.entries, a.lines)) - Sum(Unallocated(a.payments))
      && TotalDue(a) - OpenBalance(a)
         == Max(0, Sum(Unallocated(a.payments)) - Sum(OpenAmounts(a.entries, a.lines)))
      && (Sum(Unallocated(a.payments)) > 0 ==> StatementsDue(a.statements) == 0)
  {
    hide LinesOk, BillsOk, AllocationsOk, PaymentsOk, SettlementsOk, OrdersOk, JobEntriesOk, Run;
    var a := Run(EmptyAccount, cfg, events);
    ReachableIsOk(cfg, events);
    DueIsOutstanding(a.statements);
    OutstandingNonNegative(a.statements);
  }

  /** How one event moves the ledger balance. */
  function BalanceMove(a: Account, e: Event): int {
    match e
    case PrintConfirmed(jobId, total, base) =>
      if FindJobEntry(a.entries, jobId, PrintCommission).Some? then 0 else Max(0, total - base)
    case RefundConfirmed(jobId) =>
      var c := FindJobEntry(a.entries, jobId, PrintCommission);
      if c.None? || FindJobEntry(a.entries, jobId, RefundCredit).Some? then 0 else -a.entries[c.value].amountPaise
    case ManualCreditPosted(amount) => amount
    case PaymentSettled(input) => if SettleDecision(a, input).SettledNow? then -input.amountPaise else 0
    case _ => 0
  }

  /** Only posts, credits and accepted settlements move the balance; freezes and orders never do. */
  lemma BalanceMoves(a: Account, cfg: FeeConfig, e: Event, now: int)
    requires Inv(a)
    ensures OpenBalance(Apply(a, cfg, e, now)) == OpenBalance(a) + BalanceMove(a, e)
  {
    hide Inv, Allocate, UnpaidRows, ApplyPrepaid, FreezeRows, DeriveStatementAmounts, HasOverdue, TotalDue;
    var b := Apply(a, cfg, e, now);
    assert |b.entries| == |a.entries| || |b.entries| == |a.entries| + 1;
    if |b.entries| > |a.entries| {
      assert Amounts(b.entries)[..|a.entries|] == Amounts(a.entries);
    }
  }

  // ---------- freezing ----------

  function BeforeCutoff(a: Account, end: int): int {
    Sum(Masked(Amounts(a.entries), FreezePick(a, end)))
  }

  /**
   * A freeze never lowers the amount due. It leaves it unchanged exactly when the entries after
   * the cutoff net to at least zero or prepayment covers everything before the cutoff.
   */
  lemma FreezeAndAmountDue(a: Account, cfg: FeeConfig, start: int, end: int, now: int)
    requires Inv(a) && Freeze(a, cfg, start, end, now).1.FrozenNow?
    ensures var b := Freeze(a, cfg, start, end, now).0;
      var beforeCutoff := BeforeCutoff(a, end);
      var afterCutoff := Sum(OpenAmounts(a.entries, a.lines)) - beforeCutoff;
      && TotalDue(a) <= TotalDue(b)
      && OpenBalance(b) == OpenBalance(a)
      && (TotalDue(b) == TotalDue(a) <==> afterCutoff >= 0 || beforeCutoff <= Sum(Unallocated(a.payments)))
      && b.statements[|a.statements|].duePaise == beforeCutoff
  {
    hide LinesOk, BillsOk, SettlementsOk, OrdersOk, JobEntriesOk, PeriodsOk, AllocationsOk;
    var rows, amounts, d := FreezeCases(a, cfg, start, end, now);
    var b := Freeze(a, cfg, start, end, now).0;
    FreezeMovesOpen(a, b, cfg, start, end, now, rows, amounts, d);
    FreezeKeepsBalance(a, b, cfg, start, end, now, rows, amounts, d);
    FreezeKeepsInv(a, cfg, start, end, now);
    DueIsOutstanding(a.statements);
    DueIsOutstanding(b.statements);
    PrepaidUse(a, amounts.duePaise);
    OutstandingNonNegative(a.statements);
    UnallocatedNonNegative(a.payments);
    assert 0 <= amounts.duePaise by { GrossMinusCredit(At(Amounts(a.entries), rows)); }
  }

  /** A new statement uses as much prepayment as both sides allow. */
  lemma PrepaidUse(a: Account, duePaise: int)
    requires AllocationsOk(a.statements, a.payments, a.allocations) && PrepaidOk(a.payments) && 0 <= duePaise
    ensures ApplyPrepaid(a, |a.statements|, duePaise).applied == Min(duePaise, Sum(Unallocated(a.payments)))
  {
    var d := ApplyPrepaid(a, |a.statements|, duePaise);
    DrawAllDraws(Draw(a.payments, a.allocations, duePaise, 0), PrepaidRows(a.payments), |a.statements|);
    PrepaidConserves(a, duePaise, 0);
    UndrawnMeansPaid(a, duePaise);
    UnallocatedNonNegative(d.payments);
  }

  /** A surplus of credits, like every other refused freeze, changes nothing at all. */
  lemma RefusedFreezeChangesNothing(a: Account, cfg: FeeConfig, start: int, end: int, now: int)
    ensures var (b, outcome) := Freeze(a, cfg, start, end, now);
      && (!outcome.FrozenNow? ==> b == a)
      && (start < end && FindPeriod(a.statements, start, end).None? && BeforeCutoff(a, end) < 0
          ==> outcome.UnsafeTotal? || outcome.SurplusCredit?)
  {
    var rows := FreezeRows(a, end);
    var column := Amounts(a.entries);
    GrossMinusCredit(At(column, rows));
    SelectSum(EntryKeys(a.entries), FreezePick(a, end), column);
    if rows == [] { assert At(column, rows) == []; }
  }

  /** A second freeze of the same period finds the first statement and changes nothing. */
  lemma FreezeIsIdempotent(a: Account, cfg: FeeConfig, start: int, end: int, now: int, later: int)
    requires Freeze(a, cfg, start, end, now).1.FrozenNow?
    ensures var b := Freeze(a, cfg, start, end, now).0;
      Freeze(b, cfg, start, end, later) == (b, AlreadyFrozen(|a.statements|))
  {
    var b := Freeze(a, cfg, start, end, now).0;
    assert b.statements[|a.statements|].periodStart == start && b.statements[|a.statements|].periodEnd == end;
  }

  // ---------- paying the quote ----------

  lemma DueAfterSettling(a: Account, id: nat, providerPaymentId: string, now: int)
    requires Inv(a) && id < |a.payments| && !a.payments[id].status.Paid? && !PaymentIdTaken(a.payments, providerPaymentId)
    requires a.payments[id].amountPaise == TotalDue(a) && a.payments[id].amountPaise > 0
    ensures var b := PostSettlement(a, id, providerPaymentId, now);
      TotalDue(b) == 0 && FullyPaid(b.statements)
  {
    hide LinesOk, BillsOk, AllocationsOk, SettlementsOk, OrdersOk, JobEntriesOk, PeriodsOk, NoPrepaidDebt, PostSettlement, OpenBalance;
    var b := PostSettlement(a, id, providerPaymentId, now);
    SettleTotals(a, id, providerPaymentId, now);
    SettleKeepsEntries(a, id, providerPaymentId, now);
    DueIsOutstanding(a.statements);
    DueIsOutstanding(b.statements);
    OutstandingNonNegative(a.statements);
    OutstandingNonNegative(b.statements);
    UnallocatedNonNegative(a.payments);
  }

  /** Settling an order for exactly the amount due clears the account and unblocks the shop. */
  lemma SettlingTheDueClears(a: Account, cfg: FeeConfig, input: SettleInput, now: int)
    requires Inv(a) && SettleDecision(a, input).SettledNow? && input.amountPaise == TotalDue(a)
    ensures var b := Settle(a, cfg, input, now).0;
      TotalDue(b) == 0 && FullyPaid(b.statements) && b.blockedAt.None?
  {
    hide LinesOk, BillsOk, AllocationsOk, SettlementsOk, JobEntriesOk, PeriodsOk, Balanced, NoPrepaidDebt, StatementsOk, PostSettlement, StatementsDue;
    var id := FindOrder(a.payments, input.providerOrderId).value;
    DueAfterSettling(a, id, input.providerPaymentId, now);
    assert !HasOverdue(PostSettlement(a, id, input.providerPaymentId, now), cfg, now);
  }

  /** Asking for an order and paying it, with no ledger change in between, leaves nothing due. */
  lemma PayingTheQuoteClears(a: Account, cfg: FeeConfig, providerOrderId: string, now: int, input: SettleInput, later: int)
    requires Inv(a) && TotalDue(a) > 0
    requires FindOrder(a.payments, providerOrderId).None? || FindReusable(a.payments, TotalDue(a), now).Some?
    requires var (b, outcome) := CreateOrder(a, providerOrderId, now);
      (outcome.Opened? || outcome.Reused?)
      && outcome.paymentId < |b.payments|
      && input.providerOrderId == b.payments[outcome.paymentId].providerOrderId
      && input.amountPaise == b.payments[outcome.paymentId].amountPaise
      && input.currency == b.payments[outcome.paymentId].currency
      && !PaymentIdTaken(b.payments, input.providerPaymentId)
    ensures var b := CreateOrder(a, providerOrderId, now).0;
      var (c, settled) := Settle(b, cfg, input, later);
      && settled.SettledNow? && TotalDue(c) == 0 && c.blockedAt.None?
      && OpenBalance(c) == OpenBalance(a) - TotalDue(a)
  {
    hide LinesOk, BillsOk, AllocationsOk, PaymentsOk, SettlementsOk, JobEntriesOk, PeriodsOk, Balanced, NoPrepaidDebt, StatementsOk;
    var (b, outcome) := CreateOrder(a, providerOrderId, now);
    CreateOrderKeepsInv(a, providerOrderId, now);
    CreateOrderKeepsDue(a, providerOrderId, now);
    var id := FindOrder(b.payments, input.providerOrderId).value;
    assert id == outcome.paymentId;
    SettlingTheDueClears(b, cfg, input, later);
    BalanceMoves(b, cfg, PaymentSettled(input), later);
  }

  lemma CreateOrderKeepsDue(a: Account, providerOrderId: string, now: int)
    requires Inv(a)
    ensures var b := CreateOrder(a, providerOrderId, now).0; TotalDue(b) == TotalDue(a) && b.entries == a.entries
  {
    hide LinesOk, StatementsOk, BillsOk, AllocationsOk, SettlementsOk, OrdersOk, JobEntriesOk, PeriodsOk, Balanced, NoPrepaidDebt,
      FindReusable, ExpireWhere;
    var (b, outcome) := CreateOrder(a, providerOrderId, now);
    if outcome.Opened? {
      OpenedIsStatus(a.payments, b.payments[|a.payments|]);
      StatusKeepsTotals(a.payments, b.payments);
    }
  }

  // ---------- settlement is exactly-once ----------

  /** The delivery names this unpaid order, its exact amount and currency, and a payment seen nowhere else. */
  predicate Settles(payments: seq<FeePayment>, i: nat, input: SettleInput)
    requires i < |payments|
  {
    payments[i].providerOrderId == input.providerOrderId && !payments[i].status.Paid?
    && payments[i].amountPaise == input.amountPaise && payments[i].currency == input.currency
    && !PaymentIdTaken(payments, input.providerPaymentId)
  }

  /** Nothing but an accepted settlement writes; duplicates, mismatches and conflicts change no row. */
  lemma RefusedSettlementChangesNothing(a: Account, cfg: FeeConfig, input: SettleInput, now: int)
    requires Inv(a)
    ensures var (b, outcome) := Settle(a, cfg, input, now);
      && (!outcome.SettledNow? ==> b == a)
      && (outcome.SettledNow? <==> exists i :: 0 <= i < |a.payments| && Settles(a.payments, i, input))
      && (outcome.SettledNow? ==> Settle(b, cfg, input, now) == (b, AlreadyPaid))
  {
    hide LinesOk, BillsOk, AllocationsOk, PaymentsOk, SettlementsOk, JobEntriesOk, PeriodsOk, Balanced, NoPrepaidDebt, StatementsOk;
    var (b, outcome) := Settle(a, cfg, input, now);
    var found := FindOrder(a.payments, input.providerOrderId);
    if exists i :: 0 <= i < |a.payments| && Settles(a.payments, i, input) {
      var i :| 0 <= i < |a.payments| && Settles(a.payments, i, input);
      assert found == Some(i);
    }
    if outcome.SettledNow? {
      var id := found.value;
      assert Settles(a.payments, id, input);
      SettleKeepsInv(a, cfg, input, now);
      assert b.payments[id].providerOrderId == input.providerOrderId && b.payments[id].status.Paid?;
      assert FindOrder(b.payments, input.providerOrderId) == Some(id);
    }
  }

  /** A paid order stays paid by the same payment, and its ledger rows are never rewritten. */
  lemma PaidIsAbsorbing(a: Account, cfg: FeeConfig, e: Event, now: int, i: nat)
    requires Inv(a) && i < |a.payments| && a.payments[i].status.Paid?
    ensures var b := Apply(a, cfg, e, now);
      && i < |b.payments| && SamePayment(a.payments[i], b.payments[i])
      && |a.entries| <= |b.entries| && b.entries[..|a.entries|] == a.entries
  {
    hide LinesOk, BillsOk, AllocationsOk, SettlementsOk, JobEntriesOk, PeriodsOk, Balanced, NoPrepaidDebt, StatementsOk;
    hide Freeze, Allocate, UnpaidRows, HasOverdue, TotalDue;
    match e
    case PeriodFrozen(start, end) => FreezeKeepsPaid(a, cfg, start, end, now, i);
    case WeekFrozen => var p := StatementPeriod.LastCompletedWeek(now); FreezeKeepsPaid(a, cfg, p.start, p.end, now, i);
    case _ =>
  }

  lemma FreezeKeepsPaid(a: Account, cfg: FeeConfig, start: int, end: int, now: int, i: nat)
    requires Inv(a) && i < |a.payments|
    ensures var b := Freeze(a, cfg, start, end, now).0;
      i < |b.payments| && SamePayment(a.payments[i], b.payments[i]) && b.entries == a.entries
  {
    var rows, amounts, d := FreezeCases(a, cfg, start, end, now);
    if Freeze(a, cfg, start, end, now).1.FrozenNow? {
      assert 0 <= amounts.duePaise by { GrossMinusCredit(At(Amounts(a.entries), rows)); }
      DrawAllDraws(Draw(a.payments, a.allocations, amounts.duePaise, 0), PrepaidRows(a.payments), |a.statements|);
    }
  }

  // ---------- oldest first ----------

  /** No paise sits on a statement while an older one is short. */
  predicate OldestFirst(statements: seq<Statement>) {
    forall i, j ::
      0 <= i < |statements| && 0 <= j < |statements|
      && statements[i].periodEnd < statements[j].periodEnd && statements[j].paidPaise > 0
      ==> statements[i].paidPaise == statements[i].duePaise
  }

  lemma {:induction false} OwedAheadGrows(statements: seq<Statement>, rows: seq<nat>, x: nat, y: nat)
    requires StatementsOk(statements) && InRange(rows, |statements|) && x < y <= |rows|
    ensures OwedAhead(statements, rows, y)
         >= OwedAhead(statements, rows, x) + statements[rows[x]].duePaise - statements[rows[x]].paidPaise
    decreases y
  {
    var column := Outstanding(statements);
    assert At(column, rows[..y])[..y - 1] == At(column, rows[..y - 1]);
    if x < y - 1 { OwedAheadGrows(statements, rows, x, y - 1); }
  }

  /** When a later row of the waterfall receives money, every earlier row is fully paid. */
  lemma WaterfallFillsInOrder(w: Wallet, rows: seq<nat>, paymentId: nat, now: int, x: nat, y: nat)
    requires StatementsOk(w.statements) && InRange(rows, |w.statements|) && DistinctRows(rows) && 0 <= w.remaining
    requires forall j :: 0 <= j < |rows| ==> w.statements[rows[j]].paidPaise < w.statements[rows[j]].duePaise
    requires x < y < |rows|
    ensures var r := Allocate(w, rows, paymentId, now).statements;
      r[rows[y]].paidPaise > w.statements[rows[y]].paidPaise ==> r[rows[x]].paidPaise == w.statements[rows[x]].duePaise
  {
    AllocateIsWaterfall(w, rows, paymentId, now, x);
    AllocateIsWaterfall(w, rows, paymentId, now, y);
    OwedAheadGrows(w.statements, rows, x, y);
  }

  lemma UnpaidRowsInOrder(statements: seq<Statement>, i: nat, j: nat) returns (x: nat, y: nat)
    requires i in UnpaidRows(statements) && j in UnpaidRows(statements)
    requires i < |statements| && j < |statements| && statements[i].periodEnd < statements[j].periodEnd
    ensures x < y < |UnpaidRows(statements)| && UnpaidRows(statements)[x] == i && UnpaidRows(statements)[y] == j
  {
    var rows := UnpaidRows(statements);
    SelectSpec(PeriodKeys(statements), UnpaidPick(statements));
    x :| 0 <= x < |rows| && rows[x] == i;
    y :| 0 <= y < |rows| && rows[y] == j;
    assert forall p, q :: 0 <= p < q < |rows| ==> Before(PeriodKeys(statements), rows[p], rows[q]);
  }

  lemma SettleKeepsOldestFirst(a: Account, id: nat, amount: int, now: int)
    requires StatementsOk(a.statements) && OldestFirst(a.statements) && 0 <= amount
    ensures OldestFirst(Allocate(Wallet(a.statements, a.allocations, amount), UnpaidRows(a.statements), id, now).statements)
  {
    var rows, w := UnpaidRows(a.statements), Wallet(a.statements, a.allocations, amount);
    var r := Allocate(w, rows, id, now).statements;
    UnpaidRowsSpec(a.statements);
    AllocateSpreads(w, rows, id, now);
    forall i, j | 0 <= i < |r| && 0 <= j < |r| && r[i].periodEnd < r[j].periodEnd && r[j].paidPaise > 0
      ensures r[i].paidPaise == r[i].duePaise
    {
      assert SameBill(a.statements[i], r[i]) && SameBill(a.statements[j], r[j]);
      if i in rows && j in rows {
        var x, y := UnpaidRowsInOrder(a.statements, i, j);
        WaterfallFillsInOrder(w, rows, id, now, x, y);
      }
    }
  }

  lemma FreezeKeepsOldestFirst(a: Account, cfg: FeeConfig, start: int, end: int, now: int)
    requires Inv(a) && OldestFirst(a.statements)
    requires forall i :: 0 <= i < |a.statements| ==> a.statements[i].periodEnd <= end
    ensures OldestFirst(Freeze(a, cfg, start, end, now).0.statements)
  {
    hide OldestFirst, Freeze;
    var rows, amounts, d := FreezeCases(a, cfg, start, end, now);
    if Freeze(a, cfg, start, end, now).1.FrozenNow? {
      assert 0 <= amounts.duePaise by { GrossMinusCredit(At(Amounts(a.entries), rows)); }
      PrepaidUse(a, amounts.duePaise);
      OutstandingNonNegative(a.statements);
      UnallocatedNonNegative(a.payments);
      NewStatementIsLast(a.statements, NewStatement(cfg, start, end, amounts, d.applied, now));
    }
  }

  /** A newest statement may be paid only if all older ones are. */
  lemma NewStatementIsLast(statements: seq<Statement>, s: Statement)
    requires OldestFirst(statements) && (s.paidPaise > 0 ==> FullyPaid(statements))
    requires forall i :: 0 <= i < |statements| ==> statements[i].periodEnd <= s.periodEnd
    ensures OldestFirst(statements + [s])
  {
  }

  /** In production only the weekly job freezes, and the clock does not run backwards. */
  predicate WeeklyInOrder(events: seq<TimedEvent>) {
    (forall k :: 0 <= k < |events| ==> !events[k].event.PeriodFrozen?)
    && forall j, k :: 0 <= j < k < |events| ==> events[j].now <= events[k].now
  }

  ghost predicate PeriodsBy(statements: seq<Statement>, events: seq<TimedEvent>) {
    forall i :: 0 <= i < |statements| ==>
      exists k :: 0 <= k < |events| && statements[i].periodEnd == StatementPeriod.LastCompletedWeek(events[k].now).end
  }

  lemma EmptyPaysOldestFirst(events: seq<TimedEvent>)
    ensures OldestFirst(EmptyAccount.statements) && PeriodsBy(EmptyAccount.statements, events)
  {
  }

  /** Whatever the interleaving, no paise reaches a newer statement while an older one is short. */
  lemma {:induction false} WeeklyRunsPayOldestFirst(cfg: FeeConfig, events: seq<TimedEvent>)
    requires WeeklyInOrder(events)
    ensures var a := Run(EmptyAccount, cfg, events); OldestFirst(a.statements) && PeriodsBy(a.statements, events)
  {
    hide Inv, Apply, OldestFirst, PeriodsBy;
    if events == [] {
      EmptyPaysOldestFirst(events);
    } else {
      var init := events[..|events| - 1];
      assert forall j, k :: 0 <= j < k < |init| ==> init[j].now <= init[k].now;
      WeeklyRunsPayOldestFirst(cfg, init);
      ReachableIsOk(cfg, init);
      WeeklyStepPaysOldestFirst(Run(EmptyAccount, cfg, init), cfg, events);
    }
  }

  lemma WeeklyStepPaysOldestFirst(a: Account, cfg: FeeConfig, events: seq<TimedEvent>)
    requires events != [] && WeeklyInOrder(events) && Inv(a) && OldestFirst(a.statements)
    requires PeriodsBy(a.statements, events[..|events| - 1])
    ensures var last := events[|events| - 1];
      var b := Apply(a, cfg, last.event, last.now); OldestFirst(b.statements) && PeriodsBy(b.statements, events)
  {
    hide Inv, Freeze, Settle, Adopt, CreateOrder;
    var n := |events| - 1;
    var e, now := events[n].event, events[n].now;
    EarlierPeriods(a.statements, events);
    StatementPeriod.WindowEndsThisMonday(now, 0);
    match e {
      case WeekFrozen =>
        var p := StatementPeriod.LastCompletedWeek(now);
        FreezeKeepsOldestFirst(a, cfg, p.start, p.end, now);
        FreezeAddsPeriod(a, cfg, p.start, p.end, now);
        assert events[n].now == now;
      case PaymentSettled(input) =>
        SettleStepOldestFirst(a, cfg, input, now);
      case DueDatesAdopted =>
        AdoptKeepsPeriods(a, cfg, now);
      case OrderRequested(id) =>
        OrderKeepsStatements(a, id, now);
      case _ =>
    }
  }

  lemma EarlierPeriods(statements: seq<Statement>, events: seq<TimedEvent>)
    requires events != [] && WeeklyInOrder(events) && PeriodsBy(statements, events[..|events| - 1])
    ensures PeriodsBy(statements, events)
    ensures var end := StatementPeriod.LastCompletedWeek(events[|events| - 1].now).end;
      forall i :: 0 <= i < |statements| ==> statements[i].periodEnd <= end
  {
    var n := |events| - 1;
    forall i | 0 <= i < |statements|
      ensures statements[i].periodEnd <= StatementPeriod.LastCompletedWeek(events[n].now).end
      ensures exists k :: 0 <= k < |events| && statements[i].periodEnd == StatementPeriod.LastCompletedWeek(events[k].now).end
    {
      var k :| 0 <= k < n && statements[i].periodEnd == StatementPeriod.LastCompletedWeek(events[..n][k].now).end;
      assert events[..n][k] == events[k];
      StatementPeriod.WindowsAbut(events[k].now, events[n].now);
      StatementPeriod.WindowEndsThisMonday(events[n].now, 0);
    }
  }

  lemma FreezeAddsPeriod(a: Account, cfg: FeeConfig, start: int, end: int, now: int)
    ensures var b := Freeze(a, cfg, start, end, now).0;
      |a.statements| <= |b.statements| && b.statements[..|a.statements|] == a.statements
      && forall i :: |a.statements| <= i < |b.statements| ==> b.statements[i].periodEnd == end
  {
    var rows, amounts, d := FreezeCases(a, cfg, start, end, now);
  }

  lemma SettleStepOldestFirst(a: Account, cfg: FeeConfig, input: SettleInput, now: int)
    requires Inv(a) && OldestFirst(a.statements)
    ensures var b := Settle(a, cfg, input, now).0;
      OldestFirst(b.statements) && |b.statements| == |a.statements|
      && forall i :: 0 <= i < |a.statements| ==> b.statements[i].periodEnd == a.statements[i].periodEnd
  {
    hide LinesOk, BillsOk, AllocationsOk, SettlementsOk, OrdersOk, JobEntriesOk, PeriodsOk, Balanced, NoPrepaidDebt, OldestFirst;
    if SettleDecision(a, input).SettledNow? {
      var id := FindOrder(a.payments, input.providerOrderId).value;
      var w := Wallet(a.statements, a.allocations, a.payments[id].amountPaise);
      SettleKeepsOldestFirst(a, id, a.payments[id].amountPaise, now);
      UnpaidRowsSpec(a.statements);
      AllocateSpreads(w, UnpaidRows(a.statements), id, now);
      var b := Settle(a, cfg, input, now).0;
      assert b.statements == Allocate(w, UnpaidRows(a.statements), id, now).statements;
      assert forall i :: 0 <= i < |a.statements| ==> SameBill(a.statements[i], b.statements[i]);
    }
  }

  lemma AdoptKeepsPeriods(a: Account, cfg: FeeConfig, now: int)
    ensures var b := Adopt(a, cfg, now);
      |b.statements| == |a.statements| && (OldestFirst(a.statements) ==> OldestFirst(b.statements))
      && forall i :: 0 <= i < |a.statements| ==> b.statements[i] == a.statements[i].(dueAt := b.statements[i].dueAt)
  {
  }

  lemma OrderKeepsStatements(a: Account, id: string, now: int)
    ensures CreateOrder(a, id, now).0.statements == a.statements
  {
  }

  // ---------- blocking ----------

  /** After any evaluation the shop is blocked exactly when something is overdue and no override runs; repeating it is a no-op. */
  lemma EvaluationDecidesBlock(a: Account, cfg: FeeConfig, now: int)
    ensures var b := EvaluateBlock(a, cfg, now);
      && (b.blockedAt.Some? <==> HasOverdue(a, cfg, now) && !OverrideActive(a, now))
      && EvaluateBlock(b, cfg, now) == b
      && b == a.(blockedAt := b.blockedAt)
  {
    var b := EvaluateBlock(a, cfg, now);
    assert HasOverdue(b, cfg, now) == HasOverdue(a, cfg, now);
  }

  /** The event evaluates the block: the maintenance evaluation, or a settlement that is accepted. */
  predicate Evaluates(a: Account, e: Event) {
    e.BlockEvaluated? || (e.PaymentSettled? && SettleDecision(a, e.input).SettledNow?)
  }

  predicate DecidedAt(cfg: FeeConfig, events: seq<TimedEvent>, k: nat)
    requires k < |events|
  {
    var before, after := Run(EmptyAccount, cfg, events[..k]), Run(EmptyAccount, cfg, events[..k + 1]);
    Evaluates(before, events[k].event) && HasOverdue(after, cfg, events[k].now) && !OverrideActive(after, events[k].now)
  }

  /** Only an evaluation that finds an overdue statement and no override sets the flag. */
  lemma FlagSetByEvaluation(a: Account, cfg: FeeConfig, e: Event, now: int)
    ensures var b := Apply(a, cfg, e, now);
      b.blockedAt.Some? && b.blockedAt != a.blockedAt ==>
        b.blockedAt == Some(now) && Evaluates(a, e) && HasOverdue(b, cfg, now) && !OverrideActive(b, now)
  {
    hide Freeze, CreateOrder, PostSettlement, FindJobEntry;
    FreezeKeepsFlag(a, cfg, e, now);
  }

  lemma FreezeKeepsFlag(a: Account, cfg: FeeConfig, e: Event, now: int)
    ensures e.PeriodFrozen? ==> Freeze(a, cfg, e.start, e.end, now).0.blockedAt == a.blockedAt
    ensures var p := StatementPeriod.LastCompletedWeek(now); Freeze(a, cfg, p.start, p.end, now).0.blockedAt == a.blockedAt
    ensures e.OrderRequested? ==> CreateOrder(a, e.providerOrderId, now).0.blockedAt == a.blockedAt
    ensures e.PaymentSettled? && SettleDecision(a, e.input).SettledNow? ==>
      var id := FindOrder(a.payments, e.input.providerOrderId).value;
      PostSettlement(a, id, e.input.providerPaymentId, now).blockedAt == a.blockedAt
  {
    hide ApplyPrepaid, FreezeRows, DeriveStatementAmounts, FindReusable, TotalDue, Allocate, UnpaidRows;
  }

  /**
   * Over every run: right after an evaluation the shop is blocked exactly when some statement is overdue
   * and no override is active, evaluating again changes nothing, and a shop is never blocked without an
   * evaluation that found so at the very instant the flag records.
   */
  lemma {:induction false} BlockTracksDebt(cfg: FeeConfig, events: seq<TimedEvent>)
    ensures var a := Run(EmptyAccount, cfg, events);
      && (events != [] && Evaluates(Run(EmptyAccount, cfg, events[..|events| - 1]), events[|events| - 1].event) ==>
            var now := events[|events| - 1].now;
            (a.blockedAt.Some? <==> HasOverdue(a, cfg, now) && !OverrideActive(a, now)) && EvaluateBlock(a, cfg, now) == a)
      && (a.blockedAt.Some? ==>
            exists k :: 0 <= k < |events| && events[k].now == a.blockedAt.value && DecidedAt(cfg, events, k))
  {
    hide HasOverdue, OverrideActive;
    if events != [] {
      var n := |events| - 1;
      var front, last := events[..n], events[n];
      var before, a := Run(EmptyAccount, cfg, front), Run(EmptyAccount, cfg, events);
      BlockTracksDebt(cfg, front);
      FlagSetByEvaluation(before, cfg, last.event, last.now);
      if Evaluates(before, last.event) { EvaluatedDecides(before, cfg, last.event, last.now); }
      assert events[..n + 1] == events;
      if a.blockedAt.Some? && a.blockedAt == before.blockedAt {
        var k :| 0 <= k < n && front[k].now == a.blockedAt.value && DecidedAt(cfg, front, k);
        assert front[..k] == events[..k] && front[..k + 1] == events[..k + 1];
        assert DecidedAt(cfg, events, k);
      } else if a.blockedAt.Some? {
        assert DecidedAt(cfg, events, n);
      }
    }
  }

  lemma EvaluatedDecides(a: Account, cfg: FeeConfig, e: Event, now: int)
    requires Evaluates(a, e)
    ensures var b := Apply(a, cfg, e, now);
      (b.blockedAt.Some? <==> HasOverdue(b, cfg, now) && !OverrideActive(b, now)) && EvaluateBlock(b, cfg, now) == b
  {
    hide PostSettlement, HasOverdue;
    var base := if e.BlockEvaluated? then a
                else PostSettlement(a, FindOrder(a.payments, e.input.providerOrderId).value, e.input.providerPaymentId, now);
    EvaluationDecidesBlock(base, cfg, now);
    SameRowsSameOverdue(base, EvaluateBlock(base, cfg, now), cfg, now);
  }

  lemma SameRowsSameOverdue(a: Account, b: Account, cfg: FeeConfig, now: int)
    requires a.statements == b.statements
    ensures HasOverdue(a, cfg, now) == HasOverdue(b, cfg, now)
  {
  }

  lemma OverdueStays(a: Account, cfg: FeeConfig, now: int, later: int)
    requires now <= later && HasOverdue(a, cfg, now)
    ensures HasOverdue(a, cfg, later)
  {
    var i :| 0 <= i < |a.statements| && IsOverdue(a.statements[i], cfg, now);
    assert IsOverdue(a.statements[i], cfg, later);
  }

  /** Only a lift moves the end of the override, and only on a blocked shop. */
  lemma OverrideMovesOnlyByLift(a: Account, cfg: FeeConfig, e: Event, now: int)
    requires a.blockedAt.None?
    ensures Apply(a, cfg, e, now).overrideUntil == a.overrideUntil
  {
    hide ApplyPrepaid, FreezeRows, DeriveStatementAmounts, FindReusable, TotalDue, Allocate, UnpaidRows, FindJobEntry, HasOverdue;
  }

  predicate Within(events: seq<TimedEvent>, from: int, until: int) {
    forall k :: 0 <= k < |events| ==> from <= events[k].now < until
  }

  /**
   * Whatever happens before the override ends, the lifted shop stays open and the override keeps its end;
   * the first evaluation afterwards blocks exactly when something is overdue. The lift itself forgives nothing.
   */
  lemma {:induction false} LiftedStaysOpen(a: Account, cfg: FeeConfig, days: nat, now: int, events: seq<TimedEvent>, later: int)
    requires a.blockedAt.Some? && Within(events, now, now + days * DAY_MS) && now <= later
    ensures var lifted := LiftBlock(a, days, now);
      var b := Run(lifted, cfg, events);
      && b.blockedAt.None? && b.overrideUntil == Some(now + days * DAY_MS)
      && (EvaluateBlock(b, cfg, later).blockedAt.Some? <==> HasOverdue(b, cfg, later) && later >= now + days * DAY_MS)
      && (HasOverdue(a, cfg, now) ==> HasOverdue(lifted, cfg, later))
      && TotalDue(lifted) == TotalDue(a) && OpenBalance(lifted) == OpenBalance(a)
  {
    hide Apply, HasOverdue;
    var lifted := LiftBlock(a, days, now);
    var b := Run(lifted, cfg, events);
    if events != [] {
      var front, last := events[..|events| - 1], events[|events| - 1];
      LiftedStaysOpen(a, cfg, days, now, front, later);
      OverrideMovesOnlyByLift(Run(lifted, cfg, front), cfg, last.event, last.now);
      FlagSetByEvaluation(Run(lifted, cfg, front), cfg, last.event, last.now);
    }
    EvaluationDecidesBlock(b, cfg, later);
    SameRowsSameOverdue(a, lifted, cfg, later);
    if HasOverdue(a, cfg, now) { OverdueStays(a, cfg, now, later); }
  }

  // ---------- a freeze that raises the amount due ----------

  const HOUR_MS := 3_600_000

  /** The w-th Monday midnight in India. */
  function Monday(w: int): int { (7 * w + 4) * DAY_MS - StatementPeriod.IST_OFFSET_MS }

  /** A print on a Sunday night, refunded after the week has ended. */
  function RefundAfterCutoff(w: int): seq<TimedEvent> {
    [TimedEvent(PrintConfirmed("a", 300, 200), Monday(w) - HOUR_MS)] + [TimedEvent(RefundConfirmed("a"), Monday(w) + HOUR_MS)]
  }

  lemma RunSnoc(cfg: FeeConfig, events: seq<TimedEvent>, e: TimedEvent)
    ensures Run(EmptyAccount, cfg, events + [e]) == Apply(Run(EmptyAccount, cfg, events), cfg, e.event, e.now)
  {
    assert (events + [e])[..|events|] == events;
  }

  lemma RunStart(cfg: FeeConfig)
    ensures Run(EmptyAccount, cfg, []) == EmptyAccount
  {
  }

  function RefundedAccount(w: int): Account {
    EmptyAccount.(entries := [Entry(PrintCommission, 100, Monday(w) - HOUR_MS, Some("a"), None),
                              Entry(RefundCredit, -100, Monday(w) + HOUR_MS, Some("a"), None)])
  }

  lemma PrintThenRefund(at: int, later: int)
    ensures var printed := EmptyAccount.(entries := [Entry(PrintCommission, 100, at, Some("a"), None)]);
      && PostCommission(EmptyAccount, "a", 300, 200, at) == printed
      && PostRefundCredit(printed, "a", later)
         == EmptyAccount.(entries := [Entry(PrintCommission, 100, at, Some("a"), None), Entry(RefundCredit, -100, later, Some("a"), None)])
  {
    var entries := [Entry(PrintCommission, 100, at, Some("a"), None)];
    assert entries[..0] == [];
    assert FindJobEntry(entries, "a", PrintCommission) == Some(0) && FindJobEntry(entries, "a", RefundCredit) == None;
  }

  lemma RefundAfterCutoffIs(cfg: FeeConfig, w: int)
    ensures Run(EmptyAccount, cfg, RefundAfterCutoff(w)) == RefundedAccount(w)
  {
    hide Run, Freeze, CreateOrder, Settle, MarkFailed, MarkAttempted, ExpireStale, EvaluateBlock, LiftBlock, Adopt, Monday, PostCommission,
      PostRefundCredit;
    var first, second := TimedEvent(PrintConfirmed("a", 300, 200), Monday(w) - HOUR_MS), TimedEvent(RefundConfirmed("a"), Monday(w) + HOUR_MS);
    RunStart(cfg);
    RunSnoc(cfg, [], first);
    assert [] + [first] == [first];
    RunSnoc(cfg, [first], second);
    PrintThenRefund(Monday(w) - HOUR_MS, Monday(w) + HOUR_MS);
  }

  lemma OnlyFirstFrozen(a: Account, end: int)
    requires |a.entries| == 2 && a.lines == [] && a.entries[0].kind.PrintCommission? && a.entries[0].createdAt < end <= a.entries[1].createdAt
    ensures FreezeRows(a, end) == [0] && BeforeCutoff(a, end) == a.entries[0].amountPaise
  {
    var rows, pick := FreezeRows(a, end), FreezePick(a, end);
    SelectSpec(EntryKeys(a.entries), pick);
    assert forall x :: x in rows <==> x in [0];
    OrderedUnique(EntryKeys(a.entries), rows, [0]);
    var m := Masked(Amounts(a.entries), pick);
    assert m == [a.entries[0].amountPaise, 0];
    SumOfTwo(a.entries[0].amountPaise, 0);
  }

  lemma FrozenWeekIs(w: int)
    ensures StatementPeriod.LastCompletedWeek(Monday(w) + 2 * HOUR_MS) == StatementPeriod.Period(Monday(w) - 7 * DAY_MS, Monday(w))
  {
    StatementPeriod.WeekNumber(Monday(w));
    StatementPeriod.WindowEndsThisMonday(Monday(w) + 2 * HOUR_MS, Monday(w));
  }

  /**
   * It happens in every week: a print of the week is refunded after it, nothing is due, the weekly freeze
   * runs, and the amount due rises while the balance stays zero.
   */
  lemma FreezeCanRaiseAmountDue(cfg: FeeConfig, w: int)
    ensures var a := Run(EmptyAccount, cfg, RefundAfterCutoff(w));
      var b := Run(EmptyAccount, cfg, RefundAfterCutoff(w) + [TimedEvent(WeekFrozen, Monday(w) + 2 * HOUR_MS)]);
      TotalDue(a) == 0 && TotalDue(b) > 0 && OpenBalance(a) == 0 && OpenBalance(b) == 0
  {
    hide Run, Select, ApplyPrepaid, Inv, Monday, StatementPeriod.LastCompletedWeek;
    var a := Run(EmptyAccount, cfg, RefundAfterCutoff(w));
    var start, end, now := Monday(w) - 7 * DAY_MS, Monday(w), Monday(w) + 2 * HOUR_MS;
    RefundAfterCutoffIs(cfg, w);
    ReachableIsOk(cfg, RefundAfterCutoff(w));
    RunSnoc(cfg, RefundAfterCutoff(w), TimedEvent(WeekFrozen, now));
    FrozenWeekIs(w);
    OnlyFirstFrozen(a, end);
    var amounts := At(Amounts(a.entries), [0]);
    assert amounts == [100] && Positives(amounts) == [100] && Negated(amounts) == [-100] && Positives(Negated(amounts)) == [0];
    SumOfOne(100);
    SumOfOne(0);
    NothingDueYet(a, w);
    FreezeAndAmountDue(a, cfg, start, end, now);
  }

  lemma SumOfOne(x: int)
    ensures Sum([x]) == x
  {
    assert [x][..0] == [];
  }

  lemma SumOfTwo(x: int, y: int)
    ensures Sum([x, y]) == x + y
  {
    SumOfOne(x);
    assert [x, y][..1] == [x];
  }

  lemma NothingDueYet(a: Account, w: int)
    requires a == RefundedAccount(w)
    ensures Sum(OpenAmounts(a.entries, a.lines)) == 0 && Sum(Unallocated(a.payments)) == 0 && TotalDue(a) == 0 && OpenBalance(a) == 0
  {
    var open := OpenAmounts(a.entries, a.lines);
    assert open == [100, -100] && Amounts(a.entries) == [100, -100];
    SumOfTwo(100, -100);
    assert ShownDues(a.statements) == [] && Unallocated(a.payments) == [];
  }
}
