/** All orders of a shop beside their commission entries: money in the ledger follows paper on the counter. */
module PrintDesk {
  import opened Options
  import opened Numbers
  import opened StateMachine
  import opened PrintLease
  import opened Sums
  import opened Commission

  datatype Kind = PrintCommission | RefundCredit

  datatype Entry = Entry(kind: Kind, job: nat, amount: int)

  /** A commission read from the job but not yet written. */
  datatype Post = Post(job: nat, amount: int)

  datatype Desk = Desk(jobs: seq<Job>, entries: seq<Entry>, pending: seq<Post>)

  const Opened := Desk([], [], [])

  function CommissionOf(job: Job): int {
    CommissionFor(job.totalPaise, job.shopBasePaise)
  }

  predicate PostAllowed(job: Job) {
    job.payment.Paid? && job.counterConfirmedAt.Some? && job.printConfirmedAt.Some? && IsPrinted(job.status)
  }

  /** One job's amounts of one kind, oldest first. */
  function AmountsOf(entries: seq<Entry>, kind: Kind, job: nat): seq<int> {
    if entries == [] then []
    else
      var last := entries[|entries| - 1];
      var front := AmountsOf(entries[..|entries| - 1], kind, job);
      if last.kind == kind && last.job == job then front + [last.amount] else front
  }

  function PostRead(d: Desk, j: nat): Desk {
    if j < |d.jobs| && PostAllowed(d.jobs[j]) then d.(pending := d.pending + [Post(j, CommissionOf(d.jobs[j]))]) else d
  }

  /** The upsert on (job, type): an existing entry is left as it is. */
  function PostWrite(d: Desk, k: nat): Desk {
    if k < |d.pending| && AmountsOf(d.entries, PrintCommission, d.pending[k].job) == [] then
      d.(entries := d.entries + [Entry(PrintCommission, d.pending[k].job, d.pending[k].amount)])
    else d
  }

  /** The support refund: refused until the commission has been posted. */
  function Refund(d: Desk, j: nat, now: int): Desk {
    if j < |d.jobs| && RefundAllowed(d.jobs[j]) && AmountsOf(d.entries, PrintCommission, j) != [] then
      d.(jobs := d.jobs[j := ConfirmRefund(d.jobs[j], now)],
         entries := d.entries + [Entry(RefundCredit, j, -AmountsOf(d.entries, PrintCommission, j)[0])])
    else d
  }

  datatype Event =
    | OrderCreated(binding: bool, totalPaise: nat, shopBasePaise: nat)
    | JobStep(job: nat, step: Step)
    | CommissionRead(job: nat)
    | CommissionWritten(post: nat)
    | RefundConfirmed(job: nat)

  function Advance(d: Desk, e: Event, now: int, limits: Limits): Desk {
    match e
    case OrderCreated(binding, total, base) => d.(jobs := d.jobs + [NewJob(binding, total, base, now)])
    case JobStep(j, step) => if j < |d.jobs| && !step.DoRefund? then d.(jobs := d.jobs[j := Apply(d.jobs[j], step, now, limits)]) else d
    case CommissionRead(j) => PostRead(d, j)
    case CommissionWritten(k) => PostWrite(d, k)
    case RefundConfirmed(j) => Refund(d, j, now)
  }

  datatype Timed = Timed(event: Event, now: int)

  function Run(events: seq<Timed>, limits: Limits): Desk {
    if events == [] then Opened
    else Advance(Run(events[..|events| - 1], limits), events[|events| - 1].event, events[|events| - 1].now, limits)
  }

  // ---------- the invariant ----------

  predicate JobsOk(d: Desk) { forall j :: 0 <= j < |d.jobs| ==> MoneyOk(d.jobs[j]) && LeaseOk(d.jobs[j]) }

  predicate PendingOk(d: Desk) {
    forall k :: 0 <= k < |d.pending| ==>
      d.pending[k].job < |d.jobs| && IsPrinted(d.jobs[d.pending[k].job].status) && d.pending[k].amount == CommissionOf(d.jobs[d.pending[k].job])
  }

  predicate ChargedOk(d: Desk, j: nat) {
    var charged, credited := AmountsOf(d.entries, PrintCommission, j), AmountsOf(d.entries, RefundCredit, j);
    (charged != [] ==> j < |d.jobs| && IsPrinted(d.jobs[j].status) && charged == [CommissionOf(d.jobs[j])])
    && (if j < |d.jobs| && d.jobs[j].refundConfirmedAt.Some? then charged != [] && credited == [-charged[0]] else credited == [])
  }

  ghost predicate Inv(d: Desk) { JobsOk(d) && PendingOk(d) && forall j: nat :: ChargedOk(d, j) }

  lemma AppendAmounts(entries: seq<Entry>, e: Entry, kind: Kind, j: nat)
    ensures AmountsOf(entries + [e], kind, j) == AmountsOf(entries, kind, j) + if e.kind == kind && e.job == j then [e.amount] else []
  {
    assert (entries + [e])[..|entries|] == entries;
  }

  lemma JobStepKeepsInv(d: Desk, j: nat, step: Step, now: int, limits: Limits)
    requires Inv(d)
    ensures Inv(Advance(d, JobStep(j, step), now, limits))
  {
    hide MoneyOk, LeaseOk, Apply, AmountsOf, PostAllowed;
    if j < |d.jobs| && !step.DoRefund? {
      var t := Advance(d, JobStep(j, step), now, limits);
      assert MoneyOk(d.jobs[j]) && LeaseOk(d.jobs[j]);
      ApplyKeepsMoney(d.jobs[j], step, now, limits);
      ApplyKeepsLease(d.jobs[j], step, now, limits);
      PricesAreFixed(d.jobs[j], step, now, limits);
      assert forall i :: 0 <= i < |d.jobs| && i != j ==> t.jobs[i] == d.jobs[i];
      forall i: nat ensures ChargedOk(t, i) { assert ChargedOk(d, i); }
    }
  }

  lemma PostWriteKeepsInv(d: Desk, k: nat)
    requires Inv(d)
    ensures Inv(PostWrite(d, k))
  {
    hide MoneyOk, LeaseOk, AmountsOf;
    var t := PostWrite(d, k);
    if t != d {
      forall i: nat ensures ChargedOk(t, i) {
        assert ChargedOk(d, i);
        AppendAmounts(d.entries, t.entries[|d.entries|], PrintCommission, i);
        AppendAmounts(d.entries, t.entries[|d.entries|], RefundCredit, i);
      }
    }
  }

  lemma RefundKeepsInv(d: Desk, j: nat, now: int)
    requires Inv(d)
    ensures Inv(Refund(d, j, now))
  {
    hide AmountsOf;
    var t := Refund(d, j, now);
    if t != d {
      assert MoneyOk(d.jobs[j]) && LeaseOk(d.jobs[j]);
      assert MoneyOk(t.jobs[j]) && LeaseOk(t.jobs[j]);
      assert JobsOk(t);
      forall i: nat ensures ChargedOk(t, i) {
        assert ChargedOk(d, i);
        AppendAmounts(d.entries, t.entries[|d.entries|], PrintCommission, i);
        AppendAmounts(d.entries, t.entries[|d.entries|], RefundCredit, i);
      }
    }
  }

  lemma CreateKeepsInv(d: Desk, binding: bool, totalPaise: nat, shopBasePaise: nat, now: int)
    requires Inv(d)
    ensures Inv(d.(jobs := d.jobs + [NewJob(binding, totalPaise, shopBasePaise, now)]))
  {
    hide AmountsOf;
    var t := d.(jobs := d.jobs + [NewJob(binding, totalPaise, shopBasePaise, now)]);
    forall i: nat ensures ChargedOk(t, i) { assert ChargedOk(d, i); }
  }

  lemma PostReadKeepsInv(d: Desk, j: nat)
    requires Inv(d)
    ensures Inv(PostRead(d, j))
  {
    hide AmountsOf, MoneyOk, LeaseOk;
    forall i: nat ensures ChargedOk(PostRead(d, j), i) { assert ChargedOk(d, i); }
  }

  lemma {:induction false} ReachableIsOk(events: seq<Timed>, limits: Limits)
    ensures Inv(Run(events, limits))
  {
    hide Inv;
    if events == [] {
      EmptyDeskIsOk();
    } else {
      ReachableIsOk(events[..|events| - 1], limits);
      var d := Run(events[..|events| - 1], limits);
      var now := events[|events| - 1].now;
      match events[|events| - 1].event {
        case OrderCreated(binding, total, base) => CreateKeepsInv(d, binding, total, base, now);
        case JobStep(j, step) => JobStepKeepsInv(d, j, step, now, limits);
        case CommissionRead(j) => PostReadKeepsInv(d, j);
        case CommissionWritten(k) => PostWriteKeepsInv(d, k);
        case RefundConfirmed(j) => RefundKeepsInv(d, j, now);
      }
    }
  }

  lemma EmptyDeskIsOk()
    ensures Inv(Opened)
  {
  }

  // ---------- what it means ----------

  /**
   * However posts, retries, refunds and prints interleave, a job is charged at most once, only after its
   * paper is confirmed and only its own commission; a refunded job nets to zero; a cancelled or
   * counter-returned job is never charged.
   */
  lemma ChargedOnceForPaper(events: seq<Timed>, limits: Limits, j: nat)
    ensures var d := Run(events, limits);
      var charged, credited := AmountsOf(d.entries, PrintCommission, j), AmountsOf(d.entries, RefundCredit, j);
      && |charged| <= 1
      && (charged != [] ==> j < |d.jobs| && d.jobs[j].printConfirmedAt.Some? && charged == [Max(0, d.jobs[j].totalPaise - d.jobs[j].shopBasePaise)])
      && (credited != [] <==> j < |d.jobs| && d.jobs[j].refundConfirmedAt.Some?)
      && (credited != [] ==> Sum(charged) + Sum(credited) == 0)
      && (j < |d.jobs| && d.jobs[j].status.Cancelled? ==> charged == [] && credited == [])
  {
    hide Run;
    ReachableIsOk(events, limits);
    var d := Run(events, limits);
    assert ChargedOk(d, j);
    if j < |d.jobs| { assert MoneyOk(d.jobs[j]); }
    var charged, credited := AmountsOf(d.entries, PrintCommission, j), AmountsOf(d.entries, RefundCredit, j);
    if charged != [] { SumOfOne(charged[0]); }
    if credited != [] { SumOfOne(credited[0]); }
  }

  lemma SumOfOne(x: int)
    ensures Sum([x]) == x
  {
    assert [x][..0] == [];
  }

  /** A lost post is repaired: reading and writing once more leaves every paid, printed job charged exactly its commission. */
  lemma {:induction false} RepairCharges(events: seq<Timed>, limits: Limits, j: nat)
    requires j < |Run(events, limits).jobs| && Run(events, limits).jobs[j].payment.Paid?
    requires Run(events, limits).jobs[j].status in {Finishing, ReadyForPickup, Completed}
    ensures var d := Run(events, limits);
      var again := PostWrite(PostRead(d, j), |d.pending|);
      AmountsOf(again.entries, PrintCommission, j) == [Max(0, d.jobs[j].totalPaise - d.jobs[j].shopBasePaise)]
  {
    hide Run, MoneyOk, LeaseOk, AmountsOf, PostAllowed;
    ReachableIsOk(events, limits);
    var d := Run(events, limits);
    assert ChargedOk(d, j);
    MayPost(d.jobs[j]);
    AppendAmounts(d.entries, Entry(PrintCommission, j, CommissionOf(d.jobs[j])), PrintCommission, j);
  }

  lemma MayPost(job: Job)
    requires MoneyOk(job) && job.payment.Paid? && job.status in {Finishing, ReadyForPickup, Completed}
    ensures PostAllowed(job)
  {
  }

  /**
   * On every reachable desk a support refund goes through exactly for a paid, printed order whose commission is posted; it marks
   * the order refunded and credits that commission back, and otherwise writes nothing.
   */
  lemma RefundIff(events: seq<Timed>, limits: Limits, j: nat, now: int)
    ensures var d := Run(events, limits);
      Refund(d, j, now)
      == if j < |d.jobs| && d.jobs[j].payment == Paid && d.jobs[j].status in {Finishing, ReadyForPickup, Completed}
            && (exists e :: e in d.entries && e.kind == PrintCommission && e.job == j)
         then d.(jobs := d.jobs[j := d.jobs[j].(payment := Refunded, refundConfirmedAt := Some(now), updatedAt := now)],
                 entries := d.entries + [Entry(RefundCredit, j, -Max(0, d.jobs[j].totalPaise - d.jobs[j].shopBasePaise))])
         else d
  {
    hide Run, AmountsOf;
    ReachableIsOk(events, limits);
    var d := Run(events, limits);
    assert ChargedOk(d, j);
    PostedIff(d.entries, PrintCommission, j);
    if j < |d.jobs| { assert MoneyOk(d.jobs[j]); }
  }

  lemma {:induction false} PostedIff(entries: seq<Entry>, kind: Kind, j: nat)
    ensures AmountsOf(entries, kind, j) != [] <==> exists e :: e in entries && e.kind == kind && e.job == j
  {
    if entries != [] {
      var front, last := entries[..|entries| - 1], entries[|entries| - 1];
      PostedIff(front, kind, j);
      assert entries == front + [last];
    }
  }

  // ---------- the handlers in place ----------

  function SweepAll(jobs: seq<Job>, agents: Agents, now: int, limits: Limits): seq<Job> {
    seq(|jobs|, i requires 0 <= i < |jobs| => SweepOne(jobs[i], agents, now, limits))
  }

  function ReconcileAll(jobs: seq<Job>, agent: nat, session: nat, inFlight: Option<set<nat>>, now: int): seq<Job> {
    seq(|jobs|, i requires 0 <= i < |jobs| => ReconcileOne(jobs[i], i, agent, session, inFlight, now))
  }

  function Changed(before: seq<Job>, after: seq<Job>): nat
    requires |before| == |after|
  {
    if before == [] then 0
    else
      var n := |before| - 1;
      Changed(before[..n], after[..n]) + if before[n] != after[n] then 1 else 0
  }

  class Counter {
    var jobs: seq<Job>
    var entries: seq<Entry>

    function Now(): Desk
      reads this
    {
      Desk(jobs, entries, [])
    }

    method ClaimJob(j: nat, agent: nat, session: Option<nat>, now: int) returns (claimed: bool)
      requires j < |jobs|
      modifies this`jobs
      ensures jobs == old(jobs)[j := Claim(old(jobs)[j], agent, session, now)]
      ensures claimed ==> jobs[j].status.Printing? && jobs[j].claimedBy == Some(agent)
      ensures !claimed ==> jobs == old(jobs)
    {
      var job := jobs[j];
      if !job.status.OtpVerified? || StaffHeld(job.printError) || !(job.claimedBy.None? || job.claimedBy == Some(agent)) {
        return false;
      }
      job := job.(claimedBy := Some(agent), session := session);
      job := job.(status := Printing, updatedAt := now, claimedAt := now, printError := None, printAttempts := job.printAttempts + 1);
      jobs := jobs[j := job];
      claimed := true;
    }

    /** `confirmSuccessfulPrint`: false when the conditional update matched no row. */
    method ConfirmPrint(j: nat, now: int) returns (confirmed: bool)
      requires j < |jobs|
      modifies this`jobs
      ensures jobs == old(jobs)[j := ConfirmSuccessfulPrint(old(jobs)[j], now)]
      ensures confirmed == old(jobs)[j].status.Printing?
    {
      var job := jobs[j];
      var event := if job.binding then FinishingRequired else PrintCompleted;
      if !job.status.Printing? { return false; }
      var spooledAt := if job.spoolAcceptedAt.Some? then job.spoolAcceptedAt else Some(now);
      jobs := jobs[j := job.(status := Transition(Printing, event).value, updatedAt := now, printError := None,
                             spoolAcceptedAt := spooledAt, printConfirmedAt := Some(now))];
      confirmed := true;
    }

    method MarkPrintFailed(j: nat, holder: Option<nat>, reason: PrintError, now: int) returns (updated: bool)
      requires j < |jobs| && jobs[j].status.Printing?
      modifies this`jobs
      ensures jobs == old(jobs)[j := MarkPrintFailedAgentGone(old(jobs)[j], holder, reason, now)]
      ensures updated == (jobs[j] != old(jobs)[j])
    {
      var job := jobs[j];
      if job.claimedBy != holder || (reason.AgentRestarted? && job.spoolAcceptedAt.Some?) { return false; }
      jobs := jobs[j := job.(status := OtpVerified, updatedAt := now, claimedBy := None, session := None, printError := Some(reason))];
      updated := true;
    }

    /** The maintenance sweep; returns how many prints it failed. */
    method FailOrphanedPrints(agents: Agents, now: int, limits: Limits) returns (failed: nat)
      modifies this`jobs
      ensures jobs == SweepAll(old(jobs), agents, now, limits)
      ensures failed == Changed(old(jobs), jobs)
    {
      failed := 0;
      var n := |jobs|;
      ghost var before := jobs;
      for i := 0 to n
        invariant |jobs| == n && forall k :: 0 <= k < i ==> jobs[k] == SweepOne(before[k], agents, now, limits)
        invariant forall k :: i <= k < n ==> jobs[k] == before[k]
        invariant failed == Changed(before[..i], jobs[..i])
      {
        ghost var earlier := jobs;
        var job := jobs[i];
        if SweepCandidate(job, now, limits) {
          var reason := PrintLostReason(job, Holder(job, agents), now, Sweep, limits);
          if reason.Some? {
            var updated := MarkPrintFailed(i, job.claimedBy, reason.value, now);
            if updated { failed := failed + 1; }
          }
        }
        assert before[..i + 1][..i] == before[..i] && jobs[..i + 1][..i] == earlier[..i];
      }
      assert before[..n] == before && jobs[..n] == jobs;
      assert jobs == SweepAll(before, agents, now, limits);
    }

    /** A process registers or heartbeats. */
    method ReconcileAgentSession(agent: nat, session: nat, inFlight: Option<set<nat>>, now: int) returns (failed: nat)
      modifies this`jobs
      ensures jobs == ReconcileAll(old(jobs), agent, session, inFlight, now)
      ensures failed == Changed(old(jobs), jobs)
    {
      failed := 0;
      var n := |jobs|;
      ghost var before := jobs;
      for i := 0 to n
        invariant |jobs| == n && forall k :: 0 <= k < i ==> jobs[k] == ReconcileOne(before[k], k, agent, session, inFlight, now)
        invariant forall k :: i <= k < n ==> jobs[k] == before[k]
        invariant failed == Changed(before[..i], jobs[..i])
      {
        ghost var earlier := jobs;
        if LostToSession(jobs[i], i, agent, session, inFlight, now) {
          var updated := MarkPrintFailed(i, jobs[i].claimedBy, AgentRestarted, now);
          if updated { failed := failed + 1; }
        }
        assert before[..i + 1][..i] == before[..i] && jobs[..i + 1][..i] == earlier[..i];
      }
      assert before[..n] == before && jobs[..n] == jobs;
      assert jobs == ReconcileAll(before, agent, session, inFlight, now);
    }

    method Retry(j: nat, agents: Agents, printerAvailable: bool, agentOnline: bool, now: int, limits: Limits) returns (retried: bool)
      requires j < |jobs|
      modifies this`jobs
      ensures jobs == old(jobs)[j := RetryPrint(old(jobs)[j], agents, printerAvailable, agentOnline, now, limits)]
      ensures retried ==> jobs[j].status.OtpVerified? && !StaffHeld(jobs[j].printError)
    {
      if jobs[j].status.Printing? {
        if !IsPrintOrphaned(jobs[j], agents, now, limits) { return false; }
        var updated := MarkPrintFailed(j, jobs[j].claimedBy, AgentOffline, now);
      }
      if !jobs[j].status.OtpVerified? || !printerAvailable { return false; }
      var job := jobs[j].(claimedBy := None, session := None, printError := None, updatedAt := now);
      if !agentOnline { job := job.(printError := Some(NoAgentOnline)); }
      jobs := jobs[j := job];
      retried := true;
    }

    /** Read and upsert in one go. */
    method PostVerifiedPrintCommission(j: nat)
      modifies this`entries
      ensures entries == PostWrite(PostRead(old(Now()), j), 0).entries
    {
      if j >= |jobs| || !PostAllowed(jobs[j]) { return; }
      var snapshot := DeriveCommissionSnapshot(jobs[j].totalPaise, jobs[j].shopBasePaise).value;
      if AmountsOf(entries, PrintCommission, j) == [] {
        entries := entries + [Entry(PrintCommission, j, snapshot.commissionPaise)];
      }
    }

    method ConfirmCounterRefund(j: nat, now: int) returns (ok: bool)
      modifies this
      ensures Now() == Refund(old(Now()), j, now)
      ensures ok ==> j < |jobs| && jobs[j].payment.Refunded?
    {
      if j >= |jobs| || !RefundAllowed(jobs[j]) { return false; }
      var commission := AmountsOf(entries, PrintCommission, j);
      if commission == [] { return false; }
      jobs := jobs[j := jobs[j].(payment := Refunded, refundConfirmedAt := Some(now), updatedAt := now)];
      entries := entries + [Entry(RefundCredit, j, -commission[0])];
      ok := true;
    }
  }
}
