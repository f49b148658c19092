/** What every fee transaction keeps true of the tables. */
module FeeInvariant {
  import opened Options
  import opened Numbers
  import opened Sums
  import opened RowOrder
  import opened FeeLedger
  import opened FeeAllocation

  // ---------- the invariant ----------

  function LineAmounts(lines: seq<Line>, statementId: nat): seq<int> {
    seq(|lines|, k requires 0 <= k < |lines| => if lines[k].statementId == statementId then lines[k].amountPaise else 0)
  }

  /** Each entry is on at most one statement, at its own amount; settlements are on none. */
  predicate LinesOk(entries: seq<Entry>, lines: seq<Line>, statements: seq<Statement>) {
    (forall k :: 0 <= k < |lines| ==>
       lines[k].statementId < |statements| && lines[k].entryId < |entries|
       && lines[k].amountPaise == entries[lines[k].entryId].amountPaise
       && !entries[lines[k].entryId].kind.StatementSettlement?)
    && forall j, k :: 0 <= j < k < |lines| ==> lines[j].entryId != lines[k].entryId
  }

  /** A statement asks for exactly the sum of its lines and has received exactly its allocations. */
  predicate BillsOk(lines: seq<Line>, statements: seq<Statement>, allocations: seq<Allocation>) {
    forall i :: 0 <= i < |statements| ==>
      statements[i].duePaise == Sum(LineAmounts(lines, i)) && statements[i].paidPaise == Sum(ToStatement(allocations, i))
  }

  predicate AllocationsOk(statements: seq<Statement>, payments: seq<FeePayment>, allocations: seq<Allocation>) {
    (forall k :: 0 <= k < |allocations| ==>
       allocations[k].statementId < |statements| && allocations[k].paymentId < |payments|
       && payments[allocations[k].paymentId].status.Paid? && allocations[k].amountPaise > 0)
    && forall j, k :: 0 <= j < k < |allocations| ==>
         !(allocations[j].paymentId == allocations[k].paymentId && allocations[j].statementId == allocations[k].statementId)
  }

  /** A paid order's amount is what it allocated plus what is still unallocated. */
  predicate PaymentsOk(payments: seq<FeePayment>, allocations: seq<Allocation>) {
    PrepaidOk(payments)
    && forall i :: 0 <= i < |payments| ==>
         var p := payments[i];
         p.amountPaise > 0
         && (p.status.Paid? <==> p.providerPaymentId.Some?) && (p.status.Paid? <==> p.paidAt.Some?)
         && (p.status.Paid? ==> p.amountPaise == Sum(FromPayment(allocations, i)) + p.unallocatedPaise)
  }

  predicate HasSettlement(entries: seq<Entry>, paymentId: nat) {
    exists e :: 0 <= e < |entries| && entries[e].feePaymentId == Some(paymentId)
  }

  /** A paid order has exactly one settlement entry, of exactly minus its amount; no other order has one. */
  predicate SettlementsOk(entries: seq<Entry>, payments: seq<FeePayment>) {
    (forall e :: 0 <= e < |entries| ==>
       (entries[e].kind.StatementSettlement? <==> entries[e].feePaymentId.Some?)
       && (entries[e].feePaymentId.Some? ==>
             var p := entries[e].feePaymentId.value;
             p < |payments| && payments[p].status.Paid? && entries[e].amountPaise == -payments[p].amountPaise))
    && (forall d, e :: 0 <= d < e < |entries| && entries[d].feePaymentId.Some? ==> entries[d].feePaymentId != entries[e].feePaymentId)
    && forall p :: 0 <= p < |payments| && payments[p].status.Paid? ==> HasSettlement(entries, p)
  }

  predicate OrdersOk(payments: seq<FeePayment>) {
    (forall i, j :: 0 <= i < j < |payments| ==> payments[i].providerOrderId != payments[j].providerOrderId)
    && (forall i, j :: 0 <= i < j < |payments| && payments[i].providerPaymentId.Some? ==>
          payments[i].providerPaymentId != payments[j].providerPaymentId)
    && forall i, j :: 0 <= i < j < |payments| ==> !(IsOpenOrder(payments[i]) && IsOpenOrder(payments[j]))
  }

  predicate JobEntriesOk(entries: seq<Entry>) {
    forall i, j :: 0 <= i < j < |entries| && entries[i].jobId.Some? && entries[i].kind == entries[j].kind ==>
      entries[i].jobId != entries[j].jobId
  }

  predicate PeriodsOk(statements: seq<Statement>) {
    forall i, j :: 0 <= i < j < |statements| ==>
      !(statements[i].periodStart == statements[j].periodStart && statements[i].periodEnd == statements[j].periodEnd)
  }

  /** The ledger balance is what statements still ask, plus open entries, minus prepayment. */
  predicate Balanced(a: Account) {
    OpenBalance(a) == Sum(Outstanding(a.statements)) + Sum(OpenAmounts(a.entries, a.lines)) - Sum(Unallocated(a.payments))
  }

  predicate FullyPaid(statements: seq<Statement>) {
    forall i :: 0 <= i < |statements| ==> statements[i].paidPaise == statements[i].duePaise
  }

  /** Prepayment and debt never coexist. */
  predicate NoPrepaidDebt(a: Account) {
    Sum(Unallocated(a.payments)) > 0 ==> FullyPaid(a.statements)
  }

  predicate Inv(a: Account) {
    LinesOk(a.entries, a.lines, a.statements)
    && StatementsOk(a.statements)
    && BillsOk(a.lines, a.statements, a.allocations)
    && AllocationsOk(a.statements, a.payments, a.allocations)
    && PaymentsOk(a.payments, a.allocations)
    && SettlementsOk(a.entries, a.payments)
    && OrdersOk(a.payments)
    && JobEntriesOk(a.entries)
    && PeriodsOk(a.statements)
    && Balanced(a)
    && NoPrepaidDebt(a)
  }

  lemma UnallocatedNonNegative(payments: seq<FeePayment>)
    requires PrepaidOk(payments)
    ensures 0 <= Sum(Unallocated(payments))
    ensures Sum(Unallocated(payments)) == 0 <==> forall i :: 0 <= i < |payments| ==> payments[i].unallocatedPaise == 0
  {
    var column := Unallocated(payments);
    SumBounds(column);
    forall i | 0 <= i < |payments| ensures column[i] == payments[i].unallocatedPaise {}
  }

  lemma OutstandingNonNegative(statements: seq<Statement>)
    requires StatementsOk(statements)
    ensures 0 <= Sum(Outstanding(statements))
    ensures Sum(Outstanding(statements)) == 0 <==> FullyPaid(statements)
  {
    var column := Outstanding(statements);
    SumBounds(column);
    forall i | 0 <= i < |statements| ensures column[i] == statements[i].duePaise - statements[i].paidPaise {}
  }

  // ---------- entries ----------

  lemma AppendKeepsBalance(a: Account, e: Entry)
    requires LinesOk(a.entries, a.lines, a.statements) && Balanced(a) && !e.kind.StatementSettlement?
    ensures Balanced(a.(entries := a.entries + [e]))
    ensures Sum(OpenAmounts(a.entries + [e], a.lines)) == Sum(OpenAmounts(a.entries, a.lines)) + e.amountPaise
  {
    var es := a.entries + [e];
    assert Amounts(es)[..|a.entries|] == Amounts(a.entries);
    assert IsOpenEntry(es, a.lines, |a.entries|);
    forall i | 0 <= i < |a.entries| ensures OpenAmounts(es, a.lines)[i] == OpenAmounts(a.entries, a.lines)[i] {}
    assert OpenAmounts(es, a.lines)[..|a.entries|] == OpenAmounts(a.entries, a.lines);
  }

  lemma AppendKeepsSettlements(a: Account, e: Entry)
    requires SettlementsOk(a.entries, a.payments) && !e.kind.StatementSettlement? && e.feePaymentId.None?
    ensures SettlementsOk(a.entries + [e], a.payments)
  {
    var es := a.entries + [e];
    forall p | 0 <= p < |a.payments| && a.payments[p].status.Paid? ensures HasSettlement(es, p) {
      var k :| 0 <= k < |a.entries| && a.entries[k].feePaymentId == Some(p);
      assert es[k].feePaymentId == Some(p);
    }
  }

  lemma AppendKeepsEntries(a: Account, e: Entry)
    requires LinesOk(a.entries, a.lines, a.statements) && JobEntriesOk(a.entries)
    requires e.jobId.Some? ==> forall i :: 0 <= i < |a.entries| ==> !(a.entries[i].kind == e.kind && a.entries[i].jobId == e.jobId)
    ensures LinesOk(a.entries + [e], a.lines, a.statements) && JobEntriesOk(a.entries + [e])
  {
  }

  lemma AppendOpenEntry(a: Account, e: Entry)
    requires Inv(a) && !e.kind.StatementSettlement? && e.feePaymentId.None?
    requires e.jobId.Some? ==> forall i :: 0 <= i < |a.entries| ==> !(a.entries[i].kind == e.kind && a.entries[i].jobId == e.jobId)
    ensures Inv(a.(entries := a.entries + [e]))
  {
    hide LinesOk, StatementsOk, BillsOk, AllocationsOk, PaymentsOk, SettlementsOk, OrdersOk, JobEntriesOk, PeriodsOk, Balanced, FullyPaid;
    AppendKeepsBalance(a, e);
    AppendKeepsSettlements(a, e);
    AppendKeepsEntries(a, e);
  }

  // ---------- weekly freeze ----------

  /** The pieces a successful freeze is made of. */
  ghost predicate FreezesInto(a: Account, b: Account, cfg: FeeConfig, start: int, end: int, now: int,
                              rows: seq<nat>, amounts: StatementAmounts, d: Draw)
  {
    rows == FreezeRows(a, end) && rows != []
    && DeriveStatementAmounts(At(Amounts(a.entries), rows)) == Some(amounts)
    && amounts.creditPaise <= amounts.grossPaise
    && d == ApplyPrepaid(a, |a.statements|, amounts.duePaise)
    && b == a.(lines := a.lines + NewLines(a, rows),
               statements := a.statements + [NewStatement(cfg, start, end, amounts, d.applied, now)],
               payments := d.payments, allocations := d.allocations)
    && FindPeriod(a.statements, start, end).None?
  }

  lemma {:induction false} GrossMinusCredit(amounts: seq<int>)
    ensures Gross(amounts) - Gross(Negated(amounts)) == Sum(amounts)
    ensures 0 <= Gross(amounts) && 0 <= Gross(Negated(amounts))
  {
    SumPointwise(Positives(amounts), amounts, Positives(Negated(amounts)));
    SumBounds(Positives(amounts));
    SumBounds(Positives(Negated(amounts)));
  }

  lemma FreezeRowsSpec(a: Account, end: int)
    ensures DistinctRows(FreezeRows(a, end))
    ensures forall i: nat :: i in FreezeRows(a, end) <==>
              i < |a.entries| && a.entries[i].createdAt < end && IsOpenEntry(a.entries, a.lines, i)
  {
    SelectSpec(EntryKeys(a.entries), FreezePick(a, end));
  }

  lemma PrepaidRowsSpec(payments: seq<FeePayment>)
    ensures DistinctRows(PrepaidRows(payments))
    ensures forall i: nat :: i in PrepaidRows(payments) <==>
              i < |payments| && payments[i].status.Paid? && payments[i].unallocatedPaise > 0
    ensures forall k :: 0 <= k < |PrepaidRows(payments)| ==>
              var p := payments[PrepaidRows(payments)[k]]; p.status.Paid? && p.unallocatedPaise > 0
  {
    SelectSpec(PaidKeys(payments), PrepaidPick(payments));
    var rows := PrepaidRows(payments);
    forall k | 0 <= k < |rows| ensures payments[rows[k]].status.Paid? && payments[rows[k]].unallocatedPaise > 0 {
      assert rows[k] in rows;
    }
  }

  /** A statement asks for the sum of the entries it freezes, which leave the open total. */
  lemma FreezeMovesOpen(a: Account, b: Account, cfg: FeeConfig, start: int, end: int, now: int,
                        rows: seq<nat>, amounts: StatementAmounts, d: Draw)
    requires FreezesInto(a, b, cfg, start, end, now, rows, amounts, d)
    ensures amounts.duePaise == Sum(At(Amounts(a.entries), rows))
    ensures Sum(OpenAmounts(b.entries, b.lines)) == Sum(OpenAmounts(a.entries, a.lines)) - amounts.duePaise
    ensures amounts.duePaise == Sum(Masked(Amounts(a.entries), FreezePick(a, end)))
  {
    var column, pick := Amounts(a.entries), FreezePick(a, end);
    GrossMinusCredit(At(column, rows));
    SelectSum(EntryKeys(a.entries), pick, column);
    FreezeRowsSpec(a, end);
    forall i | 0 <= i < |a.entries|
      ensures OpenAmounts(a.entries, a.lines)[i] == OpenAmounts(b.entries, b.lines)[i] + Masked(column, pick)[i]
    {
      NewLinesCover(a, rows, i);
    }
    SumPointwise(OpenAmounts(a.entries, a.lines), OpenAmounts(b.entries, b.lines), Masked(column, pick));
  }

  lemma NewLinesCover(a: Account, rows: seq<nat>, i: nat)
    requires InRange(rows, |a.entries|)
    ensures Statemented(a.lines + NewLines(a, rows), i) <==> Statemented(a.lines, i) || i in rows
  {
    var lines := a.lines + NewLines(a, rows);
    if Statemented(a.lines, i) {
      var k :| 0 <= k < |a.lines| && a.lines[k].entryId == i;
      assert lines[k].entryId == i;
    }
    if i in rows {
      var k :| 0 <= k < |rows| && rows[k] == i;
      assert lines[|a.lines| + k].entryId == i;
    }
  }

  lemma NewLineAmounts(a: Account, rows: seq<nat>, i: nat)
    requires InRange(rows, |a.entries|) && LinesOk(a.entries, a.lines, a.statements) && i <= |a.statements|
    ensures Sum(LineAmounts(a.lines + NewLines(a, rows), i))
         == if i < |a.statements| then Sum(LineAmounts(a.lines, i)) else Sum(At(Amounts(a.entries), rows))
  {
    var added := NewLines(a, rows);
    assert LineAmounts(a.lines + added, i) == LineAmounts(a.lines, i) + LineAmounts(added, i);
    SumAppend(LineAmounts(a.lines, i), LineAmounts(added, i));
    if i < |a.statements| {
      SumZeros(LineAmounts(added, i));
    } else {
      SumZeros(LineAmounts(a.lines, i));
      assert LineAmounts(added, i) == At(Amounts(a.entries), rows);
    }
  }

  lemma NewLinesOk(a: Account, end: int, s: Statement)
    requires LinesOk(a.entries, a.lines, a.statements)
    ensures LinesOk(a.entries, a.lines + NewLines(a, FreezeRows(a, end)), a.statements + [s])
  {
    var rows := FreezeRows(a, end);
    FreezeRowsSpec(a, end);
    forall k | 0 <= k < |rows| ensures IsOpenEntry(a.entries, a.lines, rows[k]) {
      assert rows[k] in rows;
    }
    var lines, n := a.lines + NewLines(a, rows), |a.lines|;
    forall j, k | 0 <= j < k < |lines| ensures lines[j].entryId != lines[k].entryId {
      if j < n <= k { assert !Statemented(a.lines, rows[k - n]) && a.lines[j].entryId == lines[j].entryId; }
    }
  }

  lemma PrepaidKeepsPayments(a: Account, duePaise: int)
    requires PaymentsOk(a.payments, a.allocations) && 0 <= duePaise
    ensures var d := ApplyPrepaid(a, |a.statements|, duePaise);
      Drawn(Draw(a.payments, a.allocations, duePaise, 0), d) && PaymentsOk(d.payments, d.allocations)
  {
    hide DrawAll, PrepaidRows;
    var sid := |a.statements|;
    var d0, picks := Draw(a.payments, a.allocations, duePaise, 0), PrepaidRows(a.payments);
    PrepaidRowsSpec(a.payments);
    DrawAllDraws(d0, picks, sid);
    var d := ApplyPrepaid(a, sid, duePaise);
    forall i | 0 <= i < |d.payments|
      ensures SamePayment(a.payments[i], d.payments[i])
      ensures d.payments[i].status.Paid? ==>
                d.payments[i].amountPaise == Sum(FromPayment(d.allocations, i)) + d.payments[i].unallocatedPaise
    {
      DrawAllConserves(d0, picks, sid, i, 0);
    }
  }

  /** Drawing prepayment keeps every payment's and every statement's books. */
  lemma PrepaidKeepsBooks(a: Account, duePaise: int, statements: seq<Statement>)
    requires AllocationsOk(a.statements, a.payments, a.allocations) && PaymentsOk(a.payments, a.allocations) && 0 <= duePaise
    requires |statements| == |a.statements| + 1
    ensures var d := ApplyPrepaid(a, |a.statements|, duePaise);
      && AllocationsOk(statements, d.payments, d.allocations) && PaymentsOk(d.payments, d.allocations)
      && 0 <= d.remaining <= duePaise && d.applied == duePaise - d.remaining
  {
    hide DrawAll, PrepaidRows, PaymentsOk;
    var sid := |a.statements|;
    var d0, picks := Draw(a.payments, a.allocations, duePaise, 0), PrepaidRows(a.payments);
    PrepaidRowsSpec(a.payments);
    PrepaidKeepsPayments(a, duePaise);
    DrawAllIsFresh(d0, picks, sid);
    var d := ApplyPrepaid(a, sid, duePaise);
    FreshPairs(a, d.allocations, picks, sid);
    forall i | 0 <= i < |d.payments| ensures d.payments[i].status == a.payments[i].status {
      assert SamePayment(a.payments[i], d.payments[i]);
    }
    forall k | 0 <= k < |d.allocations|
      ensures d.allocations[k].statementId < |statements| && d.allocations[k].paymentId < |d.payments|
              && d.payments[d.allocations[k].paymentId].status.Paid? && d.allocations[k].amountPaise > 0
    {
      if k < |a.allocations| { assert d.allocations[k] == d.allocations[..|a.allocations|][k]; }
    }
  }

  lemma PrepaidConserves(a: Account, duePaise: int, i: nat)
    requires AllocationsOk(a.statements, a.payments, a.allocations) && i <= |a.statements|
    ensures var d := ApplyPrepaid(a, |a.statements|, duePaise);
      && Sum(Unallocated(d.payments)) == Sum(Unallocated(a.payments)) - (duePaise - d.remaining)
      && Sum(ToStatement(d.allocations, i))
           == (if i < |a.statements| then Sum(ToStatement(a.allocations, i)) else duePaise - d.remaining)
  {
    var d0, picks := Draw(a.payments, a.allocations, duePaise, 0), PrepaidRows(a.payments);
    PrepaidRowsSpec(a.payments);
    if i == |a.statements| { SumZeros(ToStatement(a.allocations, i)); }
    assert picks == [] || a.payments != [];
    if a.payments != [] { DrawAllConserves(d0, picks, |a.statements|, 0, i); }
  }

  lemma FreezeKeepsBills(a: Account, b: Account, cfg: FeeConfig, start: int, end: int, now: int,
                         rows: seq<nat>, amounts: StatementAmounts, d: Draw)
    requires LinesOk(a.entries, a.lines, a.statements) && BillsOk(a.lines, a.statements, a.allocations)
    requires AllocationsOk(a.statements, a.payments, a.allocations) && PaymentsOk(a.payments, a.allocations)
    requires FreezesInto(a, b, cfg, start, end, now, rows, amounts, d)
    ensures BillsOk(b.lines, b.statements, b.allocations)
  {
    FreezeMovesOpen(a, b, cfg, start, end, now, rows, amounts, d);
    DrawAllDraws(Draw(a.payments, a.allocations, amounts.duePaise, 0), PrepaidRows(a.payments), |a.statements|);
    forall i | 0 <= i < |b.statements|
      ensures b.statements[i].duePaise == Sum(LineAmounts(b.lines, i))
      ensures b.statements[i].paidPaise == Sum(ToStatement(b.allocations, i))
    {
      NewLineAmounts(a, rows, i);
      PrepaidConserves(a, amounts.duePaise, i);
    }
  }

  lemma FreshPairs(a: Account, after: seq<Allocation>, picks: seq<nat>, statementId: nat)
    requires AllocationsOk(a.statements, a.payments, a.allocations) && statementId == |a.statements|
    requires FreshDraws(a.allocations, after, picks, statementId)
    ensures forall j, k :: 0 <= j < k < |after| ==>
              !(after[j].paymentId == after[k].paymentId && after[j].statementId == after[k].statementId)
  {
    forall j, k | 0 <= j < k < |after|
      ensures !(after[j].paymentId == after[k].paymentId && after[j].statementId == after[k].statementId)
    {
      if j < |a.allocations| { assert after[j] == after[..|a.allocations|][j]; }
      if k < |a.allocations| { assert after[k] == after[..|a.allocations|][k]; }
    }
  }

  lemma FreezeKeepsBalance(a: Account, b: Account, cfg: FeeConfig, start: int, end: int, now: int,
                           rows: seq<nat>, amounts: StatementAmounts, d: Draw)
    requires AllocationsOk(a.statements, a.payments, a.allocations) && PrepaidOk(a.payments) && Balanced(a)
    requires FreezesInto(a, b, cfg, start, end, now, rows, amounts, d)
    ensures Balanced(b)
    ensures Sum(Outstanding(b.statements)) == Sum(Outstanding(a.statements)) + amounts.duePaise - d.applied
    ensures Sum(Unallocated(b.payments)) == Sum(Unallocated(a.payments)) - d.applied
  {
    hide AllocationsOk, FreezeRows, SamePayment, NewLines, FindPeriod;
    FreezeMovesOpen(a, b, cfg, start, end, now, rows, amounts, d);
    DrawAllDraws(Draw(a.payments, a.allocations, amounts.duePaise, 0), PrepaidRows(a.payments), |a.statements|);
    PrepaidConserves(a, amounts.duePaise, 0);
    assert Outstanding(b.statements)[..|a.statements|] == Outstanding(a.statements);
  }

  lemma FreezeKeepsNoPrepaidDebt(a: Account, b: Account, cfg: FeeConfig, start: int, end: int, now: int,
                                 rows: seq<nat>, amounts: StatementAmounts, d: Draw)
    requires AllocationsOk(a.statements, a.payments, a.allocations) && PrepaidOk(a.payments) && NoPrepaidDebt(a)
    requires FreezesInto(a, b, cfg, start, end, now, rows, amounts, d)
    ensures NoPrepaidDebt(b)
  {
    GrossMinusCredit(At(Amounts(a.entries), rows));
    DrawAllDraws(Draw(a.payments, a.allocations, amounts.duePaise, 0), PrepaidRows(a.payments), |a.statements|);
    PrepaidConserves(a, amounts.duePaise, 0);
    UndrawnMeansPaid(a, amounts.duePaise);
  }

  /** Prepayment survives a draw only when the new statement is fully paid. */
  lemma UndrawnMeansPaid(a: Account, duePaise: int)
    requires PrepaidOk(a.payments) && 0 <= duePaise
    ensures var d := ApplyPrepaid(a, |a.statements|, duePaise);
      d.remaining > 0 ==> Sum(Unallocated(d.payments)) == 0
  {
    var d0, picks := Draw(a.payments, a.allocations, duePaise, 0), PrepaidRows(a.payments);
    PrepaidRowsSpec(a.payments);
    DrawAllDraws(d0, picks, |a.statements|);
    var d := ApplyPrepaid(a, |a.statements|, duePaise);
    if d.remaining > 0 {
      forall i | 0 <= i < |d.payments| ensures d.payments[i].unallocatedPaise == 0 {
        if i in picks {
          var k :| 0 <= k < |picks| && picks[k] == i;
          DrawAllExhausts(d0, picks, |a.statements|, k);
        } else {
          DrawAllLeaves(d0, picks, |a.statements|, i);
        }
      }
      UnallocatedNonNegative(d.payments);
    }
  }

  lemma NewStatementOk(a: Account, cfg: FeeConfig, start: int, end: int, amounts: StatementAmounts, applied: int, now: int)
    requires StatementsOk(a.statements) && PeriodsOk(a.statements) && FindPeriod(a.statements, start, end).None?
    requires 0 <= applied <= amounts.duePaise
    ensures StatementsOk(a.statements + [NewStatement(cfg, start, end, amounts, applied, now)])
    ensures PeriodsOk(a.statements + [NewStatement(cfg, start, end, amounts, applied, now)])
  {
  }

  lemma FrozenKeepsInv(a: Account, b: Account, cfg: FeeConfig, start: int, end: int, now: int,
                       rows: seq<nat>, amounts: StatementAmounts, d: Draw)
    requires Inv(a) && FreezesInto(a, b, cfg, start, end, now, rows, amounts, d)
    ensures Inv(b)
  {
    NewLinesOk(a, end, NewStatement(cfg, start, end, amounts, d.applied, now));
    assert 0 <= amounts.duePaise by { GrossMinusCredit(At(Amounts(a.entries), rows)); }
    PrepaidKeepsBooks(a, amounts.duePaise, b.statements);
    NewStatementOk(a, cfg, start, end, amounts, d.applied, now);
    FreezeKeepsBills(a, b, cfg, start, end, now, rows, amounts, d);
    FreezeKeepsBalance(a, b, cfg, start, end, now, rows, amounts, d);
    FreezeKeepsNoPrepaidDebt(a, b, cfg, start, end, now, rows, amounts, d);
    FreezeKeepsOrders(a, b, amounts.duePaise);
  }

  /** A freeze either leaves the tables alone or takes the one path that writes them. */
  lemma FreezeCases(a: Account, cfg: FeeConfig, start: int, end: int, now: int)
    returns (rows: seq<nat>, amounts: StatementAmounts, d: Draw)
    ensures var (b, outcome) := Freeze(a, cfg, start, end, now);
      if outcome.FrozenNow? then FreezesInto(a, b, cfg, start, end, now, rows, amounts, d) else b == a
  {
    rows := FreezeRows(a, end);
    var derived := DeriveStatementAmounts(At(Amounts(a.entries), rows));
    amounts := if derived.Some? then derived.value else StatementAmounts(0, 0, 0);
    d := ApplyPrepaid(a, |a.statements|, amounts.duePaise);
  }

  lemma FreezeKeepsInv(a: Account, cfg: FeeConfig, start: int, end: int, now: int)
    requires Inv(a)
    ensures Inv(Freeze(a, cfg, start, end, now).0)
  {
    var rows, amounts, d := FreezeCases(a, cfg, start, end, now);
    var (b, outcome) := Freeze(a, cfg, start, end, now);
    if outcome.FrozenNow? { FrozenKeepsInv(a, b, cfg, start, end, now, rows, amounts, d); }
  }

  lemma FreezeKeepsOrders(a: Account, b: Account, duePaise: int)
    requires OrdersOk(a.payments) && SettlementsOk(a.entries, a.payments) && PrepaidOk(a.payments) && 0 <= duePaise
    requires b.payments == ApplyPrepaid(a, |a.statements|, duePaise).payments && b.entries == a.entries
    ensures OrdersOk(b.payments) && SettlementsOk(b.entries, b.payments)
  {
    DrawAllDraws(Draw(a.payments, a.allocations, duePaise, 0), PrepaidRows(a.payments), |a.statements|);
    assert forall i :: 0 <= i < |a.payments| ==> SamePayment(a.payments[i], b.payments[i]);
  }

  // ---------- settlement ----------

  lemma UnpaidRowsSpec(statements: seq<Statement>)
    requires StatementsOk(statements)
    ensures DistinctRows(UnpaidRows(statements))
    ensures forall i: nat :: i in UnpaidRows(statements) <==> i < |statements| && statements[i].paidPaise < statements[i].duePaise
    ensures forall k :: 0 <= k < |UnpaidRows(statements)| ==>
              var s := statements[UnpaidRows(statements)[k]]; s.paidPaise < s.duePaise
  {
    SelectSpec(PeriodKeys(statements), UnpaidPick(statements));
    var rows := UnpaidRows(statements);
    forall k | 0 <= k < |rows| ensures statements[rows[k]].paidPaise < statements[rows[k]].duePaise {
      assert rows[k] in rows;
    }
  }

  /** Adding up what is owed along the unpaid rows adds up the whole debt. */
  lemma OwedIsOutstanding(statements: seq<Statement>)
    requires StatementsOk(statements)
    ensures OwedAhead(statements, UnpaidRows(statements), |UnpaidRows(statements)|) == Sum(Outstanding(statements))
  {
    var rows, column := UnpaidRows(statements), Outstanding(statements);
    assert rows[..|rows|] == rows;
    SelectSum(PeriodKeys(statements), UnpaidPick(statements), column);
    assert Masked(column, UnpaidPick(statements)) == column;
  }

  lemma SettleKeepsRows(a: Account, id: nat, providerPaymentId: string, now: int)
    requires LinesOk(a.entries, a.lines, a.statements) && StatementsOk(a.statements) && PeriodsOk(a.statements)
    requires BillsOk(a.lines, a.statements, a.allocations) && a.payments != [] && a.payments[0].amountPaise > 0
    requires forall i :: 0 <= i < |a.payments| ==> a.payments[i].amountPaise > 0
    requires id < |a.payments| && !a.payments[id].status.Paid?
    ensures var b := PostSettlement(a, id, providerPaymentId, now);
      StatementsOk(b.statements) && LinesOk(b.entries, b.lines, b.statements) && PeriodsOk(b.statements)
      && BillsOk(b.lines, b.statements, b.allocations)
  {
    var rows, w := UnpaidRows(a.statements), Wallet(a.statements, a.allocations, a.payments[id].amountPaise);
    UnpaidRowsSpec(a.statements);
    AllocateSpreads(w, rows, id, now);
    AllocateConservesAll(w, rows, id, now);
    var b := PostSettlement(a, id, providerPaymentId, now);
    forall i | 0 <= i < |b.statements|
      ensures b.statements[i].duePaise == Sum(LineAmounts(b.lines, i))
              && b.statements[i].paidPaise == Sum(ToStatement(b.allocations, i))
    {
      assert SameBill(a.statements[i], b.statements[i]);
    }
    forall i, j | 0 <= i < j < |b.statements|
      ensures !(b.statements[i].periodStart == b.statements[j].periodStart && b.statements[i].periodEnd == b.statements[j].periodEnd)
    {
      assert SameBill(a.statements[i], b.statements[i]) && SameBill(a.statements[j], b.statements[j]);
    }
  }

  lemma AllocateConservesAll(w: Wallet, rows: seq<nat>, paymentId: nat, now: int)
    requires InRange(rows, |w.statements|)
    ensures var r := Allocate(w, rows, paymentId, now);
      forall i :: 0 <= i < |w.statements| ==>
        r.statements[i].paidPaise - w.statements[i].paidPaise
        == Sum(ToStatement(r.allocations, i)) - Sum(ToStatement(w.allocations, i))
  {
    forall i | 0 <= i < |w.statements|
      ensures var r := Allocate(w, rows, paymentId, now);
        r.statements[i].paidPaise - w.statements[i].paidPaise
        == Sum(ToStatement(r.allocations, i)) - Sum(ToStatement(w.allocations, i))
    {
      AllocateConserves(w, rows, paymentId, now, i, 0);
    }
  }

  lemma SettleKeepsAllocations(a: Account, id: nat, providerPaymentId: string, now: int)
    requires StatementsOk(a.statements) && AllocationsOk(a.statements, a.payments, a.allocations)
    requires id < |a.payments| && !a.payments[id].status.Paid? && a.payments[id].amountPaise > 0
    ensures var b := PostSettlement(a, id, providerPaymentId, now);
      AllocationsOk(b.statements, b.payments, b.allocations)
  {
    var rows, w := UnpaidRows(a.statements), Wallet(a.statements, a.allocations, a.payments[id].amountPaise);
    UnpaidRowsSpec(a.statements);
    AllocateSpreads(w, rows, id, now);
    var after, n := Allocate(w, rows, id, now).allocations, |a.allocations|;
    var b := PostSettlement(a, id, providerPaymentId, now);
    forall k | 0 <= k < |after|
      ensures after[k].statementId < |b.statements| && after[k].paymentId < |b.payments|
              && b.payments[after[k].paymentId].status.Paid? && after[k].amountPaise > 0
    {
      if k < n { assert after[k] == after[..n][k]; }
    }
    forall j, k | 0 <= j < k < |after|
      ensures !(after[j].paymentId == after[k].paymentId && after[j].statementId == after[k].statementId)
    {
      if j < n { assert after[j] == after[..n][j]; }
      if k < n { assert after[k] == after[..n][k]; }
    }
  }

  lemma SettleKeepsPayments(a: Account, id: nat, providerPaymentId: string, now: int)
    requires StatementsOk(a.statements) && AllocationsOk(a.statements, a.payments, a.allocations)
    requires PaymentsOk(a.payments, a.allocations) && id < |a.payments| && !a.payments[id].status.Paid?
    ensures var b := PostSettlement(a, id, providerPaymentId, now);
      PaymentsOk(b.payments, b.allocations)
  {
    var rows, w := UnpaidRows(a.statements), Wallet(a.statements, a.allocations, a.payments[id].amountPaise);
    UnpaidRowsSpec(a.statements);
    AllocateSpreads(w, rows, id, now);
    var b := PostSettlement(a, id, providerPaymentId, now);
    assert rows == [] || a.statements != [];
    forall i | 0 <= i < |b.payments|
      ensures b.payments[i].status.Paid? ==>
                b.payments[i].amountPaise == Sum(FromPayment(b.allocations, i)) + b.payments[i].unallocatedPaise
    {
      if a.statements != [] { AllocateConserves(w, rows, id, now, 0, i); }
      if i == id { SumZeros(FromPayment(a.allocations, id)); }
    }
  }

  lemma SettleKeepsEntries(a: Account, id: nat, providerPaymentId: string, now: int)
    requires LinesOk(a.entries, a.lines, a.statements) && SettlementsOk(a.entries, a.payments) && OrdersOk(a.payments)
    requires JobEntriesOk(a.entries) && id < |a.payments| && !a.payments[id].status.Paid? && !PaymentIdTaken(a.payments, providerPaymentId)
    ensures var b := PostSettlement(a, id, providerPaymentId, now);
      SettlementsOk(b.entries, b.payments) && OrdersOk(b.payments) && JobEntriesOk(b.entries)
      && Sum(OpenAmounts(b.entries, b.lines)) == Sum(OpenAmounts(a.entries, a.lines))
      && OpenBalance(b) == OpenBalance(a) - a.payments[id].amountPaise
  {
    hide Allocate, UnpaidRows;
    var b := PostSettlement(a, id, providerPaymentId, now);
    var n := |a.entries|;
    assert Amounts(b.entries)[..n] == Amounts(a.entries);
    assert OpenAmounts(b.entries, b.lines)[..n] == OpenAmounts(a.entries, a.lines);
    assert b.entries[n].feePaymentId == Some(id);
    forall p | 0 <= p < |b.payments| && b.payments[p].status.Paid? ensures HasSettlement(b.entries, p) {
      if p != id {
        var k :| 0 <= k < n && a.entries[k].feePaymentId == Some(p);
        assert b.entries[k].feePaymentId == Some(p);
      }
    }
  }

  lemma AllocateDebt(w: Wallet, rows: seq<nat>, paymentId: nat, now: int)
    requires InRange(rows, |w.statements|)
    ensures var r := Allocate(w, rows, paymentId, now);
      Sum(Outstanding(w.statements)) - Sum(Outstanding(r.statements)) == w.remaining - r.remaining
  {
    if rows != [] {
      assert rows[0] < |w.statements|;
      AllocateConserves(w, rows, paymentId, now, 0, 0);
    }
  }

  lemma PaysOutstanding(a: Account, id: nat, amount: int, now: int)
    requires StatementsOk(a.statements) && 0 <= amount
    ensures var r, debt := Allocate(Wallet(a.statements, a.allocations, amount), UnpaidRows(a.statements), id, now), Sum(Outstanding(a.statements));
      && Sum(Outstanding(r.statements)) == Max(0, debt - amount)
      && r.remaining == Max(0, amount - debt)
  {
    hide Allocate, UnpaidRows, Outstanding, Sum;
    var rows, w := UnpaidRows(a.statements), Wallet(a.statements, a.allocations, amount);
    AllocateDebt(w, rows, id, now);
    assert Allocate(w, rows, id, now).remaining == Max(0, amount - Sum(Outstanding(a.statements))) by {
      UnpaidRowsSpec(a.statements);
      AllocateRemaining(w, rows, id, now);
      OwedIsOutstanding(a.statements);
    }
  }

  /** What a settlement does to the totals: debt first, the rest becomes prepayment. */
  lemma SettleTotals(a: Account, id: nat, providerPaymentId: string, now: int)
    requires StatementsOk(a.statements) && PrepaidOk(a.payments)
    requires id < |a.payments| && !a.payments[id].status.Paid? && a.payments[id].amountPaise > 0
    ensures var b, debt := PostSettlement(a, id, providerPaymentId, now), Sum(Outstanding(a.statements));
      && Sum(Outstanding(b.statements)) == Max(0, debt - a.payments[id].amountPaise)
      && Sum(Unallocated(b.payments)) == Sum(Unallocated(a.payments)) + Max(0, a.payments[id].amountPaise - debt)
      && StatementsOk(b.statements) && PrepaidOk(b.payments)
  {
    hide Allocate, UnpaidRows;
    var b := PostSettlement(a, id, providerPaymentId, now);
    PaysOutstanding(a, id, a.payments[id].amountPaise, now);
    UnpaidRowsSpec(a.statements);
    AllocateSpreads(Wallet(a.statements, a.allocations, a.payments[id].amountPaise), UnpaidRows(a.statements), id, now);
    var remaining := b.payments[id].unallocatedPaise;
    assert Unallocated(b.payments) == Unallocated(a.payments)[id := remaining];
    SumUpdate(Unallocated(a.payments), id, remaining);
  }

  lemma SettleKeepsBalance(a: Account, id: nat, providerPaymentId: string, now: int)
    requires LinesOk(a.entries, a.lines, a.statements) && SettlementsOk(a.entries, a.payments) && OrdersOk(a.payments)
    requires JobEntriesOk(a.entries) && StatementsOk(a.statements) && PrepaidOk(a.payments) && Balanced(a) && NoPrepaidDebt(a)
    requires id < |a.payments| && a.payments[id].amountPaise > 0 && !a.payments[id].status.Paid? && !PaymentIdTaken(a.payments, providerPaymentId)
    ensures var b := PostSettlement(a, id, providerPaymentId, now);
      Balanced(b) && NoPrepaidDebt(b)
  {
    hide LinesOk, SettlementsOk, OrdersOk, JobEntriesOk, PostSettlement, OpenBalance;
    var b := PostSettlement(a, id, providerPaymentId, now);
    SettleTotals(a, id, providerPaymentId, now);
    SettleKeepsEntries(a, id, providerPaymentId, now);
    OutstandingNonNegative(a.statements);
    OutstandingNonNegative(b.statements);
    UnallocatedNonNegative(a.payments);
  }

  lemma SettleKeepsInv(a: Account, cfg: FeeConfig, input: SettleInput, now: int)
    requires Inv(a)
    ensures Inv(Settle(a, cfg, input, now).0)
  {
    if SettleDecision(a, input).SettledNow? {
      var id := FindOrder(a.payments, input.providerOrderId).value;
      SettleKeepsRows(a, id, input.providerPaymentId, now);
      SettleKeepsAllocations(a, id, input.providerPaymentId, now);
      SettleKeepsPayments(a, id, input.providerPaymentId, now);
      SettleKeepsEntries(a, id, input.providerPaymentId, now);
      SettleKeepsBalance(a, id, input.providerPaymentId, now);
      EvaluateKeepsInv(PostSettlement(a, id, input.providerPaymentId, now), cfg, now);
    }
  }

  lemma EvaluateKeepsInv(a: Account, cfg: FeeConfig, now: int)
    requires Inv(a)
    ensures Inv(EvaluateBlock(a, cfg, now))
  {
  }

  // ---------- order status ----------

  /** Status changes among unpaid orders, and appended unpaid orders, touch no money. */
  predicate OnlyStatus(before: seq<FeePayment>, after: seq<FeePayment>) {
    |before| <= |after|
    && (forall i :: 0 <= i < |before| ==>
          after[i] == before[i].(status := after[i].status)
          && (before[i].status.Paid? <==> after[i].status.Paid?)
          && (IsOpenOrder(after[i]) ==> IsOpenOrder(before[i])))
    && forall i :: |before| <= i < |after| ==>
         var p := after[i];
         !p.status.Paid? && p.amountPaise > 0 && p.unallocatedPaise == 0 && p.providerPaymentId.None? && p.paidAt.None?
  }

  lemma StatusKeepsTotals(before: seq<FeePayment>, after: seq<FeePayment>)
    requires OnlyStatus(before, after) && PrepaidOk(before)
    ensures Sum(Unallocated(after)) == Sum(Unallocated(before))
  {
    var tail := after[|before|..];
    assert Unallocated(after) == Unallocated(before) + Unallocated(tail);
    SumAppend(Unallocated(before), Unallocated(tail));
    SumZeros(Unallocated(tail));
  }

  lemma StatusKeepsInv(a: Account, payments: seq<FeePayment>)
    requires Inv(a) && OnlyStatus(a.payments, payments) && OrdersOk(payments)
    ensures Inv(a.(payments := payments))
  {
    StatusKeepsTotals(a.payments, payments);
    StatusKeepsBooks(a, payments);
  }

  lemma StatusKeepsBooks(a: Account, payments: seq<FeePayment>)
    requires AllocationsOk(a.statements, a.payments, a.allocations) && PaymentsOk(a.payments, a.allocations)
    requires SettlementsOk(a.entries, a.payments) && OnlyStatus(a.payments, payments)
    ensures AllocationsOk(a.statements, payments, a.allocations) && PaymentsOk(payments, a.allocations)
    ensures SettlementsOk(a.entries, payments)
  {
  }

  lemma ExpireIsStatus(payments: seq<FeePayment>, before: Option<int>)
    requires OrdersOk(payments)
    ensures OnlyStatus(payments, ExpireWhere(payments, before)) && OrdersOk(ExpireWhere(payments, before))
    ensures before.None? ==> forall i :: 0 <= i < |payments| ==> !IsOpenOrder(ExpireWhere(payments, before)[i])
  {
    var after := ExpireWhere(payments, before);
    forall i, j | 0 <= i < j < |after| ensures !(IsOpenOrder(after[i]) && IsOpenOrder(after[j])) {}
    forall i, j | 0 <= i < j < |after| ensures after[i].providerOrderId != after[j].providerOrderId {}
    forall i, j | 0 <= i < j < |after| && after[i].providerPaymentId.Some?
      ensures after[i].providerPaymentId != after[j].providerPaymentId {}
  }

  lemma OpenedIsStatus(payments: seq<FeePayment>, p: FeePayment)
    requires OrdersOk(payments) && FindOrder(payments, p.providerOrderId).None?
    requires !p.status.Paid? && p.amountPaise > 0 && p.unallocatedPaise == 0 && p.providerPaymentId.None? && p.paidAt.None?
    ensures OnlyStatus(payments, ExpireWhere(payments, None) + [p]) && OrdersOk(ExpireWhere(payments, None) + [p])
  {
    ExpireIsStatus(payments, None);
  }

  lemma {:induction false} CreateOrderKeepsInv(a: Account, providerOrderId: string, now: int)
    requires Inv(a)
    ensures Inv(CreateOrder(a, providerOrderId, now).0)
  {
    var (b, outcome) := CreateOrder(a, providerOrderId, now);
    if outcome.Opened? {
      OpenedIsStatus(a.payments, b.payments[|a.payments|]);
      StatusKeepsInv(a, b.payments);
    }
  }

  lemma ExpireKeepsInv(a: Account, now: int)
    requires Inv(a)
    ensures Inv(ExpireStale(a, now))
  {
    ExpireIsStatus(a.payments, Some(now));
    StatusKeepsInv(a, ExpireStale(a, now).payments);
  }

  lemma StatusUpdateIsStatus(payments: seq<FeePayment>, id: nat, status: OrderStatus)
    requires OrdersOk(payments) && id < |payments| && status in {Attempted, Failed} && IsOpenOrder(payments[id])
    ensures OnlyStatus(payments, payments[id := payments[id].(status := status)])
    ensures OrdersOk(payments[id := payments[id].(status := status)])
  {
  }

  lemma MarkKeepsInv(a: Account, providerOrderId: string, paymentId: nat)
    requires Inv(a)
    ensures Inv(MarkFailed(a, providerOrderId)) && Inv(MarkAttempted(a, paymentId))
  {
    var found := FindOrder(a.payments, providerOrderId);
    if found.Some? && a.payments[found.value].status in {Created, Attempted} {
      StatusUpdateIsStatus(a.payments, found.value, Failed);
      StatusKeepsInv(a, MarkFailed(a, providerOrderId).payments);
    }
    if paymentId < |a.payments| && a.payments[paymentId].status.Created? {
      StatusUpdateIsStatus(a.payments, paymentId, Attempted);
      StatusKeepsInv(a, MarkAttempted(a, paymentId).payments);
    }
  }

  // ---------- due dates ----------

  lemma AdoptKeepsStatements(statements: seq<Statement>, lines: seq<Line>, allocations: seq<Allocation>, after: seq<Statement>, due: int)
    requires StatementsOk(statements) && PeriodsOk(statements) && BillsOk(lines, statements, allocations)
    requires |after| == |statements|
    requires forall i :: 0 <= i < |after| ==> after[i] == statements[i] || after[i] == statements[i].(dueAt := Some(due))
    ensures StatementsOk(after) && PeriodsOk(after) && BillsOk(lines, after, allocations)
    ensures Outstanding(after) == Outstanding(statements)
  {
    assert forall i :: 0 <= i < |after| ==> after[i] == statements[i].(dueAt := after[i].dueAt);
  }

  lemma AdoptKeepsInv(a: Account, cfg: FeeConfig, now: int)
    requires Inv(a)
    ensures Inv(Adopt(a, cfg, now))
  {
    if cfg.enabled {
      AdoptKeepsStatements(a.statements, a.lines, a.allocations, Adopt(a, cfg, now).statements, DueAtFor(cfg, now));
    }
  }
}
