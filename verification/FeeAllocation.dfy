/** What the two allocation loops do to the rows they touch. */
module FeeAllocation {
  import opened Options
  import opened Numbers
  import opened Sums
  import opened RowOrder
  import opened FeeLedger

  predicate StatementOk(s: Statement) {
    0 <= s.paidPaise <= s.duePaise
    && (IsUnpaid(s) || s.status.Settled?)
    && (s.status.Settled? <==> s.paidPaise == s.duePaise)
  }

  predicate StatementsOk(statements: seq<Statement>) {
    forall i :: 0 <= i < |statements| ==> StatementOk(statements[i])
  }

  function ToStatement(allocations: seq<Allocation>, statementId: nat): seq<int> {
    seq(|allocations|, k requires 0 <= k < |allocations| =>
      if allocations[k].statementId == statementId then allocations[k].amountPaise else 0)
  }

  function FromPayment(allocations: seq<Allocation>, paymentId: nat): seq<int> {
    seq(|allocations|, k requires 0 <= k < |allocations| =>
      if allocations[k].paymentId == paymentId then allocations[k].amountPaise else 0)
  }

  lemma AddAllocation(allocations: seq<Allocation>, x: Allocation, statementId: nat, paymentId: nat)
    ensures Sum(ToStatement(allocations + [x], statementId))
         == Sum(ToStatement(allocations, statementId)) + (if x.statementId == statementId then x.amountPaise else 0)
    ensures Sum(FromPayment(allocations + [x], paymentId))
         == Sum(FromPayment(allocations, paymentId)) + (if x.paymentId == paymentId then x.amountPaise else 0)
  {
    var n := |allocations|;
    assert ToStatement(allocations + [x], statementId)[..n] == ToStatement(allocations, statementId);
    assert FromPayment(allocations + [x], paymentId)[..n] == FromPayment(allocations, paymentId);
  }

  /** Rows appended by one loop: all from one payment or to one statement, positive, no pair twice. */
  predicate FreshAllocations(before: seq<Allocation>, after: seq<Allocation>) {
    |before| <= |after| && after[..|before|] == before
    && (forall k :: |before| <= k < |after| ==> after[k].amountPaise > 0)
    && forall j, k :: |before| <= j < k < |after| ==>
         !(after[j].paymentId == after[k].paymentId && after[j].statementId == after[k].statementId)
  }

  predicate DistinctRows(rows: seq<nat>) { forall x, y :: 0 <= x < y < |rows| ==> rows[x] != rows[y] }

  lemma TailRows(rows: seq<nat>)
    requires rows != [] && DistinctRows(rows)
    ensures DistinctRows(rows[1..]) && rows[0] !in rows[1..]
    ensures forall x :: x in rows <==> x == rows[0] || x in rows[1..]
  {
    assert rows == [rows[0]] + rows[1..];
  }

  // ---------- one payment over many statements ----------

  /** How a settlement of `paymentId` may change the statements and allocations. */
  predicate Spread(w: Wallet, r: Wallet, rows: seq<nat>, paymentId: nat) {
    |r.statements| == |w.statements|
    && StatementsOk(r.statements)
    && 0 <= r.remaining <= w.remaining
    && FreshAllocations(w.allocations, r.allocations)
    && (forall k :: |w.allocations| <= k < |r.allocations| ==>
          r.allocations[k].paymentId == paymentId && r.allocations[k].statementId in rows)
    && (forall i :: 0 <= i < |r.statements| && i !in rows ==> r.statements[i] == w.statements[i])
    && forall i :: 0 <= i < |r.statements| ==> SameBill(w.statements[i], r.statements[i])
  }

  predicate SameBill(s: Statement, t: Statement) {
    t.duePaise == s.duePaise && t.periodStart == s.periodStart && t.periodEnd == s.periodEnd
    && t.grossPaise == s.grossPaise && t.creditPaise == s.creditPaise && t.dueAt == s.dueAt && t.frozenAt == s.frozenAt
    && s.paidPaise <= t.paidPaise
  }

  lemma TakeKeepsStatements(w: Wallet, id: nat, paymentId: nat, now: int)
    requires StatementsOk(w.statements) && id < |w.statements| && 0 <= w.remaining
    ensures StatementsOk(TakeFor(w, id, paymentId, now).statements)
    ensures 0 <= TakeFor(w, id, paymentId, now).remaining <= w.remaining
    ensures SameBill(w.statements[id], TakeFor(w, id, paymentId, now).statements[id])
  {
  }

  /** What one step did, and what the rest of the loop did to other rows, together. */
  lemma OneMoreSpread(w: Wallet, w1: Wallet, r: Wallet, rows: seq<nat>, paymentId: nat)
    requires rows != [] && rows[0] < |w.statements| && rows[0] !in rows[1..] && |w1.statements| == |w.statements|
    requires forall i :: 0 <= i < |w.statements| && i != rows[0] ==> w1.statements[i] == w.statements[i]
    requires SameBill(w.statements[rows[0]], w1.statements[rows[0]]) && w1.remaining <= w.remaining
    requires w1.allocations == w.allocations
             || exists take: int :: take > 0 && w1.allocations == w.allocations + [Allocation(paymentId, rows[0], take)]
    requires Spread(w1, r, rows[1..], paymentId)
    ensures Spread(w, r, rows, paymentId)
  {
    hide StatementsOk;
    assert forall i :: i !in rows ==> i != rows[0] && i !in rows[1..];
    assert r.allocations[..|w.allocations|] == r.allocations[..|w1.allocations|][..|w.allocations|];
    if w1.allocations != w.allocations {
      assert r.allocations[|w.allocations|] == r.allocations[..|w1.allocations|][|w.allocations|];
      assert forall k :: |w.allocations| < k < |r.allocations| ==> r.allocations[k].statementId in rows[1..] && r.allocations[k].statementId in rows;
    }
  }

  lemma {:induction false} AllocateSpreads(w: Wallet, rows: seq<nat>, paymentId: nat, now: int)
    requires StatementsOk(w.statements) && InRange(rows, |w.statements|) && DistinctRows(rows) && 0 <= w.remaining
    ensures Spread(w, Allocate(w, rows, paymentId, now), rows, paymentId)
    decreases |rows|
  {
    hide StatementsOk;
    if rows != [] && w.remaining > 0 {
      hide Spread;
      TailRows(rows);
      TakeKeepsStatements(w, rows[0], paymentId, now);
      var w1 := TakeFor(w, rows[0], paymentId, now);
      AllocateSpreads(w1, rows[1..], paymentId, now);
      OneMoreSpread(w, w1, Allocate(w1, rows[1..], paymentId, now), rows, paymentId);
    } else {
      assert w.allocations[..|w.allocations|] == w.allocations;
    }
  }

  lemma TakeConserves(w: Wallet, id: nat, paymentId: nat, now: int, i: nat, other: nat)
    requires id < |w.statements| && i < |w.statements|
    ensures var r := TakeFor(w, id, paymentId, now);
      && Sum(Outstanding(w.statements)) - Sum(Outstanding(r.statements)) == w.remaining - r.remaining
      && r.statements[i].paidPaise - w.statements[i].paidPaise
           == Sum(ToStatement(r.allocations, i)) - Sum(ToStatement(w.allocations, i))
      && Sum(FromPayment(r.allocations, other)) - Sum(FromPayment(w.allocations, other))
           == (if other == paymentId then w.remaining - r.remaining else 0)
  {
    var s := w.statements[id];
    if s.duePaise - s.paidPaise > 0 {
      var take := Min(s.duePaise - s.paidPaise, w.remaining);
      AddAllocation(w.allocations, Allocation(paymentId, id, take), i, other);
      var w1 := TakeFor(w, id, paymentId, now);
      assert Outstanding(w1.statements) == Outstanding(w.statements)[id := s.duePaise - s.paidPaise - take];
      SumUpdate(Outstanding(w.statements), id, s.duePaise - s.paidPaise - take);
    }
  }

  /** The money leaves the payment exactly as it reaches the statements, row by row and in total. */
  lemma {:induction false} AllocateConserves(w: Wallet, rows: seq<nat>, paymentId: nat, now: int, i: nat, other: nat)
    requires InRange(rows, |w.statements|) && i < |w.statements|
    ensures var r := Allocate(w, rows, paymentId, now);
      && Sum(Outstanding(w.statements)) - Sum(Outstanding(r.statements)) == w.remaining - r.remaining
      && r.statements[i].paidPaise - w.statements[i].paidPaise
           == Sum(ToStatement(r.allocations, i)) - Sum(ToStatement(w.allocations, i))
      && Sum(FromPayment(r.allocations, other)) - Sum(FromPayment(w.allocations, other))
           == (if other == paymentId then w.remaining - r.remaining else 0)
    decreases |rows|
  {
    if rows != [] && w.remaining > 0 {
      TakeConserves(w, rows[0], paymentId, now, i, other);
      AllocateConserves(TakeFor(w, rows[0], paymentId, now), rows[1..], paymentId, now, i, other);
    }
  }

  function Clamp(x: int, hi: int): int { Max(0, Min(x, hi)) }

  /** Money owed on the rows ahead of position k. */
  function OwedAhead(statements: seq<Statement>, rows: seq<nat>, k: nat): int
    requires InRange(rows, |statements|) && k <= |rows|
  {
    Sum(At(Outstanding(statements), rows[..k]))
  }

  lemma OwedAheadStep(before: seq<Statement>, after: seq<Statement>, rows: seq<nat>, k: nat)
    requires |before| == |after| && InRange(rows, |before|) && 1 <= k <= |rows|
    requires forall j :: 1 <= j < |rows| ==> before[rows[j]] == after[rows[j]]
    ensures OwedAhead(before, rows, k) == Outstanding(before)[rows[0]] + OwedAhead(after, rows[1..], k - 1)
  {
    var head := [Outstanding(before)[rows[0]]];
    assert At(Outstanding(before), rows[..k]) == head + At(Outstanding(after), rows[1..][..k - 1]);
    SumAppend(head, At(Outstanding(after), rows[1..][..k - 1]));
    assert Sum(head) == Sum(head[..0]) + head[0];
  }

  lemma OwedAheadNone(statements: seq<Statement>, rows: seq<nat>)
    requires InRange(rows, |statements|)
    ensures OwedAhead(statements, rows, 0) == 0
  {
    assert rows[..0] == [];
  }

  lemma OwedAheadBounds(statements: seq<Statement>, rows: seq<nat>, k: nat)
    requires InRange(rows, |statements|) && k <= |rows|
    requires forall j :: 0 <= j < |rows| ==> statements[rows[j]].paidPaise <= statements[rows[j]].duePaise
    ensures 0 <= OwedAhead(statements, rows, k)
  {
    SumBounds(At(Outstanding(statements), rows[..k]));
  }

  /**
   * The loop pays exactly the closed-form waterfall: a row receives what is left of the money
   * after everything owed ahead of it, up to what it owes itself; the rest of the money remains.
   */
  lemma {:induction false} AllocateIsWaterfall(w: Wallet, rows: seq<nat>, paymentId: nat, now: int, k: nat)
    requires InRange(rows, |w.statements|) && DistinctRows(rows) && 0 <= w.remaining && k < |rows|
    requires forall j :: 0 <= j < |rows| ==> w.statements[rows[j]].paidPaise < w.statements[rows[j]].duePaise
    ensures var r, s := Allocate(w, rows, paymentId, now), w.statements[rows[k]];
      r.statements[rows[k]].paidPaise
      == s.paidPaise + Clamp(w.remaining - OwedAhead(w.statements, rows, k), s.duePaise - s.paidPaise)
    decreases |rows|
  {
    hide OwedAhead;
    OwedAheadBounds(w.statements, rows, k);
    OwedAheadNone(w.statements, rows);
    if w.remaining > 0 {
      TailRows(rows);
      var w1 := TakeFor(w, rows[0], paymentId, now);
      assert forall j :: 1 <= j < |rows| ==> w1.statements[rows[j]] == w.statements[rows[j]];
      if k == 0 {
        AllocateLeaves(w1, rows[1..], paymentId, now, rows[0]);
      } else {
        OwedAheadStep(w.statements, w1.statements, rows, k);
        AllocateIsWaterfall(w1, rows[1..], paymentId, now, k - 1);
        OwedAheadBounds(w1.statements, rows[1..], k - 1);
      }
    }
  }

  lemma {:induction false} AllocateRemaining(w: Wallet, rows: seq<nat>, paymentId: nat, now: int)
    requires InRange(rows, |w.statements|) && DistinctRows(rows) && 0 <= w.remaining
    requires forall j :: 0 <= j < |rows| ==> w.statements[rows[j]].paidPaise < w.statements[rows[j]].duePaise
    ensures Allocate(w, rows, paymentId, now).remaining == Max(0, w.remaining - OwedAhead(w.statements, rows, |rows|))
    decreases |rows|
  {
    OwedAheadBounds(w.statements, rows, |rows|);
    if rows != [] && w.remaining > 0 {
      TailRows(rows);
      var w1 := TakeFor(w, rows[0], paymentId, now);
      assert forall j :: 1 <= j < |rows| ==> w1.statements[rows[j]] == w.statements[rows[j]];
      OwedAheadStep(w.statements, w1.statements, rows, |rows|);
      AllocateRemaining(w1, rows[1..], paymentId, now);
      OwedAheadBounds(w1.statements, rows[1..], |rows| - 1);
    }
  }

  lemma {:induction false} AllocateLeaves(w: Wallet, rows: seq<nat>, paymentId: nat, now: int, i: nat)
    requires InRange(rows, |w.statements|) && i < |w.statements| && i !in rows
    ensures Allocate(w, rows, paymentId, now).statements[i] == w.statements[i]
    decreases |rows|
  {
    if rows != [] && w.remaining > 0 {
      AllocateLeaves(TakeFor(w, rows[0], paymentId, now), rows[1..], paymentId, now, i);
    }
  }

  // ---------- many prepaid payments over one statement ----------

  predicate PrepaidOk(payments: seq<FeePayment>) {
    forall i :: 0 <= i < |payments| ==> 0 <= payments[i].unallocatedPaise && (!payments[i].status.Paid? ==> payments[i].unallocatedPaise == 0)
  }

  predicate SamePayment(p: FeePayment, q: FeePayment) {
    q == p.(unallocatedPaise := q.unallocatedPaise) && q.unallocatedPaise <= p.unallocatedPaise
  }

  predicate Drawn(d: Draw, r: Draw) {
    |r.payments| == |d.payments|
    && PrepaidOk(r.payments)
    && 0 <= r.remaining <= d.remaining
    && r.applied - d.applied == d.remaining - r.remaining
    && forall i :: 0 <= i < |r.payments| ==> SamePayment(d.payments[i], r.payments[i])
  }

  lemma {:induction false} DrawAllDraws(d: Draw, rows: seq<nat>, statementId: nat)
    requires PrepaidOk(d.payments) && InRange(rows, |d.payments|) && 0 <= d.remaining
    ensures Drawn(d, DrawAll(d, rows, statementId))
    decreases |rows|
  {
    if rows != [] && d.remaining > 0 {
      var d1 := DrawFrom(d, rows[0], statementId);
      DrawAllDraws(d1, rows[1..], statementId);
      var r := DrawAll(d1, rows[1..], statementId);
      forall i | 0 <= i < |r.payments| ensures SamePayment(d.payments[i], r.payments[i]) {
        assert SamePayment(d1.payments[i], r.payments[i]);
      }
    }
  }

  predicate FreshDraws(before: seq<Allocation>, after: seq<Allocation>, rows: seq<nat>, statementId: nat) {
    FreshAllocations(before, after)
    && forall k :: |before| <= k < |after| ==> after[k].statementId == statementId && after[k].paymentId in rows
  }

  lemma OneMoreFresh(before: seq<Allocation>, first: Allocation, after: seq<Allocation>, rows: seq<nat>, statementId: nat)
    requires rows != [] && first.paymentId == rows[0] && first.paymentId !in rows[1..] && first.statementId == statementId && first.amountPaise > 0
    requires FreshDraws(before + [first], after, rows[1..], statementId)
    ensures FreshDraws(before, after, rows, statementId)
  {
    assert after[..|before|] == after[..|before| + 1][..|before|] == before;
    assert after[|before|] == after[..|before| + 1][|before|] == first;
    assert forall k :: |before| < k < |after| ==> after[k].paymentId in rows[1..] && after[k].paymentId in rows;
  }

  lemma {:induction false} DrawAllIsFresh(d: Draw, rows: seq<nat>, statementId: nat)
    requires InRange(rows, |d.payments|) && DistinctRows(rows)
    requires forall k :: 0 <= k < |rows| ==> d.payments[rows[k]].unallocatedPaise > 0
    ensures FreshDraws(d.allocations, DrawAll(d, rows, statementId).allocations, rows, statementId)
    decreases |rows|
  {
    if rows != [] && d.remaining > 0 {
      hide FreshDraws;
      TailRows(rows);
      var d1 := DrawFrom(d, rows[0], statementId);
      assert forall k :: 1 <= k < |rows| ==> d1.payments[rows[k]] == d.payments[rows[k]];
      DrawAllIsFresh(d1, rows[1..], statementId);
      OneMoreFresh(d.allocations, d1.allocations[|d.allocations|], DrawAll(d1, rows[1..], statementId).allocations, rows, statementId);
    } else {
      assert d.allocations[..|d.allocations|] == d.allocations;
    }
  }

  /** Money is left undrawn only when every listed payment is used up. */
  lemma {:induction false} DrawAllExhausts(d: Draw, rows: seq<nat>, statementId: nat, k: nat)
    requires PrepaidOk(d.payments) && InRange(rows, |d.payments|) && DistinctRows(rows) && 0 <= d.remaining
    requires k < |rows| && DrawAll(d, rows, statementId).remaining > 0
    ensures DrawAll(d, rows, statementId).payments[rows[k]].unallocatedPaise == 0
    decreases |rows|
  {
    TailRows(rows);
    var d1 := DrawFrom(d, rows[0], statementId);
    if k == 0 {
      DrawAllLeaves(d1, rows[1..], statementId, rows[0]);
      DrawAllRemaining(d1, rows[1..], statementId);
    } else {
      assert rows[k] == rows[1..][k - 1];
      DrawAllExhausts(d1, rows[1..], statementId, k - 1);
    }
  }

  lemma {:induction false} DrawAllLeaves(d: Draw, rows: seq<nat>, statementId: nat, i: nat)
    requires InRange(rows, |d.payments|) && i < |d.payments| && i !in rows
    ensures DrawAll(d, rows, statementId).payments[i] == d.payments[i]
    decreases |rows|
  {
    if rows != [] && d.remaining > 0 { DrawAllLeaves(DrawFrom(d, rows[0], statementId), rows[1..], statementId, i); }
  }

  lemma {:induction false} DrawAllRemaining(d: Draw, rows: seq<nat>, statementId: nat)
    requires PrepaidOk(d.payments) && InRange(rows, |d.payments|) && 0 <= d.remaining
    ensures DrawAll(d, rows, statementId).remaining <= d.remaining
    decreases |rows|
  {
    if rows != [] && d.remaining > 0 { DrawAllRemaining(DrawFrom(d, rows[0], statementId), rows[1..], statementId); }
  }

  lemma DrawConserves(d: Draw, id: nat, statementId: nat, p: nat, other: nat)
    requires id < |d.payments| && d.payments[id].status.Paid? && p < |d.payments|
    ensures var r := DrawFrom(d, id, statementId);
      && Sum(Unallocated(d.payments)) - Sum(Unallocated(r.payments)) == d.remaining - r.remaining
      && d.payments[p].unallocatedPaise - r.payments[p].unallocatedPaise
           == Sum(FromPayment(r.allocations, p)) - Sum(FromPayment(d.allocations, p))
      && Sum(ToStatement(r.allocations, other)) - Sum(ToStatement(d.allocations, other))
           == (if other == statementId then d.remaining - r.remaining else 0)
  {
    var take := Min(d.remaining, d.payments[id].unallocatedPaise);
    var r := DrawFrom(d, id, statementId);
    AddAllocation(d.allocations, Allocation(id, statementId, take), other, p);
    assert Unallocated(r.payments) == Unallocated(d.payments)[id := d.payments[id].unallocatedPaise - take];
    SumUpdate(Unallocated(d.payments), id, d.payments[id].unallocatedPaise - take);
  }

  lemma {:induction false} DrawAllConserves(d: Draw, rows: seq<nat>, statementId: nat, p: nat, other: nat)
    requires InRange(rows, |d.payments|) && p < |d.payments|
    requires forall k :: 0 <= k < |rows| ==> d.payments[rows[k]].status.Paid?
    ensures var r := DrawAll(d, rows, statementId);
      && Sum(Unallocated(d.payments)) - Sum(Unallocated(r.payments)) == d.remaining - r.remaining
      && d.payments[p].unallocatedPaise - r.payments[p].unallocatedPaise
           == Sum(FromPayment(r.allocations, p)) - Sum(FromPayment(d.allocations, p))
      && Sum(ToStatement(r.allocations, other)) - Sum(ToStatement(d.allocations, other))
           == (if other == statementId then d.remaining - r.remaining else 0)
    decreases |rows|
  {
    if rows != [] && d.remaining > 0 {
      DrawConserves(d, rows[0], statementId, p, other);
      DrawAllConserves(DrawFrom(d, rows[0], statementId), rows[1..], statementId, p, other);
    }
  }
}
