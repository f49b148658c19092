/** One job's print fields: who holds the print, when it counts as lost, and every step that changes it. */
module PrintLease {
  import opened Options
  import opened Numbers
  import opened StateMachine

  datatype Payment = Pending | CounterDue | Paid | Refunded | Failed

  /** Recorded reasons; everything an agent reports is `Reported`, unless it happens to use a reserved word. */
  datatype PrintError = AgentOffline | AgentRestarted | ClaimTimeout | SpoolTimeout | NoAgentOnline | Reported(text: string)

  /** STAFF_DECISION_PRINT_ERRORS */
  predicate StaffHeld(e: Option<PrintError>) {
    e.Some? && (e.value.AgentOffline? || e.value.AgentRestarted? || e.value.ClaimTimeout? || e.value.SpoolTimeout?)
  }

  /** `claimedAt` is not a column: it records when the current or last claim happened. */
  datatype Job = Job(
    status: JobStatus, payment: Payment, counterConfirmedAt: Option<int>, refundConfirmedAt: Option<int>,
    claimedBy: Option<nat>, session: Option<nat>, spoolAcceptedAt: Option<int>, printConfirmedAt: Option<int>,
    printError: Option<PrintError>, printAttempts: nat, updatedAt: int, claimedAt: int,
    binding: bool, totalPaise: nat, shopBasePaise: nat)

  datatype Agent = Agent(online: bool, lastHeartbeatAt: Option<int>, createdAt: int, session: Option<nat>)

  type Agents = map<nat, Agent>

  /** The three time limits, in milliseconds, from the environment. */
  datatype Limits = Limits(lease: int, claim: int, spool: int)

  const STAFF_OFFLINE_AFTER_MS := 45_000
  const IN_FLIGHT_GRACE_MS := 15_000

  // ---------- when is a print lost ----------

  predicate AgentHoldsLease(agent: Option<Agent>, now: int, silent: int) {
    agent.Some? && now - (if agent.value.lastHeartbeatAt.Some? then agent.value.lastHeartbeatAt.value else agent.value.createdAt) <= silent
  }

  predicate AgentGoneForStaff(agent: Option<Agent>, now: int) {
    agent.None? || !agent.value.online || !AgentHoldsLease(agent, now, STAFF_OFFLINE_AFTER_MS)
  }

  datatype Mode = Sweep | Staff

  function Holder(job: Job, agents: Agents): Option<Agent> {
    if job.claimedBy.Some? && job.claimedBy.value in agents then Some(agents[job.claimedBy.value]) else None
  }

  function PrintLostReason(job: Job, agent: Option<Agent>, now: int, mode: Mode, limits: Limits): Option<PrintError> {
    var spooled := job.spoolAcceptedAt.Some?;
    if !spooled && agent.Some? && job.session.Some? && agent.value.session.Some? && job.session != agent.value.session then Some(AgentRestarted)
    else
      var age := now - job.updatedAt;
      var gone := if mode.Staff? then AgentGoneForStaff(agent, now)
                  else age >= limits.lease && !AgentHoldsLease(agent, now, limits.lease);
      if gone then Some(AgentOffline)
      else if !spooled && age >= limits.claim then Some(ClaimTimeout)
      else if spooled && now - job.spoolAcceptedAt.value >= limits.spool then Some(SpoolTimeout)
      else None
  }

  predicate IsPrintOrphaned(job: Job, agents: Agents, now: int, limits: Limits) {
    job.claimedBy.None? || PrintLostReason(job, Holder(job, agents), now, Staff, limits).Some?
  }

  // ---------- the steps; an unchanged job is a refused step ----------

  /** Apply a transition of the lifecycle table, as one conditional update. */
  function Move(job: Job, event: JobEvent, now: int): Option<Job> {
    var to := Transition(job.status, event);
    if to.None? then None else Some(job.(status := to.value, updatedAt := now))
  }

  function NewJob(binding: bool, totalPaise: nat, shopBasePaise: nat, now: int): Job {
    Job(PendingPayment, Pending, None, None, None, None, None, None, None, 0, now, now, binding, totalPaise, shopBasePaise)
  }

  function Prepare(job: Job, now: int): Job {
    if !job.status.PendingPayment? then job
    else
      var moved := Move(job, CashSelected, now);
      if moved.None? then job else moved.value.(payment := CounterDue)
  }

  function CheckIn(job: Job, now: int): Job {
    if job.payment != Paid && job.payment != CounterDue then job
    else
      var moved := Move(job, Arrived, now);
      if moved.None? then job else moved.value
  }

  function MarkAbsent(job: Job, now: int): Job {
    if !InLine(job.status) then job
    else
      var moved := Move(job, QueueSkipped, now);
      if moved.None? then job else moved.value
  }

  /** The student's cancel: never once the counter payment is confirmed. */
  function CancelOrder(job: Job, now: int): Job {
    if !(job.status.AwaitingArrival? || job.status.Queued? || job.status.Notified? || job.status.PendingPayment?) || job.payment.Paid? then job
    else
      var moved := Move(job, Cancel, now);
      if moved.None? then job else moved.value.(payment := if job.payment.CounterDue? then Failed else job.payment)
  }

  function ExpireStale(job: Job, cutoff: int, now: int): Job {
    if job.status.AwaitingArrival? && job.payment.CounterDue? && job.updatedAt < cutoff then
      var moved := Move(job, Cancel, now);
      if moved.None? then job else moved.value.(payment := Failed)
    else job
  }

  /** Dispatch only records that no agent is online; agents claim for themselves. */
  function Dispatch(job: Job, agentOnline: bool, now: int): Job {
    if !agentOnline && job.status.OtpVerified? then job.(printError := Some(NoAgentOnline), updatedAt := now) else job
  }

  /** Counter release once the code matched and a printer was chosen: an unpaid order needs staff's payment confirmation. */
  function Release(job: Job, paymentConfirmed: bool, agentOnline: bool, now: int): Job {
    if job.payment != Paid && job.payment != CounterDue then job
    else if job.payment.CounterDue? && !paymentConfirmed then job
    else
      var moved := Move(job, CounterRelease, now);
      if moved.None? then job
      else
        var cleared := moved.value.(claimedBy := None, session := None, printError := None);
        Dispatch(if job.payment.CounterDue? then cleared.(payment := Paid, counterConfirmedAt := Some(now)) else cleared, agentOnline, now)
  }

  /** The claim and its PRINT_STARTED. */
  function Claim(job: Job, agent: nat, session: Option<nat>, now: int): Job {
    if !job.status.OtpVerified? || StaffHeld(job.printError) || !(job.claimedBy.None? || job.claimedBy == Some(agent)) then job
    else
      var moved := Move(job, PrintStarted, now);
      if moved.None? then job
      else moved.value.(claimedBy := Some(agent), session := session, printError := None, printAttempts := job.printAttempts + 1, claimedAt := now)
  }

  /** A different process of the same computer holds the job. */
  predicate OtherSessionHolds(job: Job, session: Option<nat>) {
    job.session.Some? && session.Some? && job.session != session
  }

  predicate MayReport(job: Job, agent: nat, session: Option<nat>) {
    job.claimedBy == Some(agent) && !OtherSessionHolds(job, session)
  }

  function SpoolAccepted(job: Job, agent: nat, session: Option<nat>, now: int): Job {
    if MayReport(job, agent, session) && job.status.Printing? && job.spoolAcceptedAt.None? then
      job.(spoolAcceptedAt := Some(now), printError := None, updatedAt := now)
    else job
  }

  function ConfirmSuccessfulPrint(job: Job, now: int): Job {
    if !job.status.Printing? then job
    else
      var moved := Move(job, if job.binding then FinishingRequired else PrintCompleted, now);
      if moved.None? then job
      else moved.value.(printError := None, printConfirmedAt := Some(now),
                        spoolAcceptedAt := if job.spoolAcceptedAt.Some? then job.spoolAcceptedAt else Some(now))
  }

  function SimulatorComplete(job: Job, agent: nat, session: Option<nat>, now: int): Job {
    if MayReport(job, agent, session) then ConfirmSuccessfulPrint(job, now) else job
  }

  function FailPrint(job: Job, reason: PrintError, now: int): Job {
    var moved := Move(job, PrintFailed, now);
    if moved.None? then job else moved.value.(claimedBy := None, session := None, printError := Some(reason))
  }

  function AgentFail(job: Job, agent: nat, session: Option<nat>, reason: PrintError, now: int): Job {
    if MayReport(job, agent, session) then FailPrint(job, reason, now) else job
  }

  /** Guarded by the holder the caller saw and, for a restart, by the missing spool acknowledgement. */
  function MarkPrintFailedAgentGone(job: Job, holder: Option<nat>, reason: PrintError, now: int): Job {
    if job.claimedBy != holder || (reason.AgentRestarted? && job.spoolAcceptedAt.Some?) then job else FailPrint(job, reason, now)
  }

  /** The sweep's coarse query: a strict age bound, or a known session without a spool acknowledgement. */
  predicate SweepCandidate(job: Job, now: int, limits: Limits) {
    job.status.Printing? && (job.updatedAt < now - Min(limits.lease, limits.claim) || (job.session.Some? && job.spoolAcceptedAt.None?))
  }

  function SweepOne(job: Job, agents: Agents, now: int, limits: Limits): Job {
    if !SweepCandidate(job, now, limits) then job
    else
      var reason := PrintLostReason(job, Holder(job, agents), now, Sweep, limits);
      if reason.None? then job else MarkPrintFailedAgentGone(job, job.claimedBy, reason.value, now)
  }

  /** A registering or heartbeating process: which printing jobs it cannot be working on. */
  predicate LostToSession(job: Job, id: nat, agent: nat, session: nat, inFlight: Option<set<nat>>, now: int) {
    job.status.Printing? && job.claimedBy == Some(agent) && job.spoolAcceptedAt.None?
    && ((job.session.Some? && job.session.value != session)
        || (inFlight.Some? && id !in inFlight.value && job.updatedAt < now - IN_FLIGHT_GRACE_MS))
  }

  function ReconcileOne(job: Job, id: nat, agent: nat, session: nat, inFlight: Option<set<nat>>, now: int): Job {
    if LostToSession(job, id, agent, session, inFlight, now) then MarkPrintFailedAgentGone(job, job.claimedBy, AgentRestarted, now) else job
  }

  /** Staff may fail a print whose computer is gone; None is the refusal while it still prints. */
  function ReleaseOrphanedPrint(job: Job, agents: Agents, now: int, limits: Limits): Option<Job> {
    if !job.status.Printing? then Some(job)
    else if !IsPrintOrphaned(job, agents, now, limits) then None
    else Some(MarkPrintFailedAgentGone(job, job.claimedBy, AgentOffline, now))
  }

  function RetryPrint(job: Job, agents: Agents, printerAvailable: bool, agentOnline: bool, now: int, limits: Limits): Job {
    var freed := ReleaseOrphanedPrint(job, agents, now, limits);
    if freed.None? then job
    else if !freed.value.status.OtpVerified? || !printerAvailable then freed.value
    else Dispatch(freed.value.(claimedBy := None, session := None, printError := None, updatedAt := now), agentOnline, now)
  }

  function ReturnCounterPayment(job: Job, agents: Agents, now: int, limits: Limits): Job {
    var freed := ReleaseOrphanedPrint(job, agents, now, limits);
    if freed.None? then job
    else
      var j := freed.value;
      if j.payment != Paid || j.counterConfirmedAt.None? || !j.status.OtpVerified? then j
      else
        var moved := Move(j, CounterPaymentReturned, now);
        if moved.None? then j else moved.value.(payment := Refunded, claimedBy := None, session := None, printError := None)
  }

  function CompleteFinishing(job: Job, now: int): Job {
    var moved := Move(job, FinishingCompleted, now);
    if moved.None? then job else moved.value
  }

  function HandOver(job: Job, now: int): Job {
    var moved := Move(job, HandedOver, now);
    if moved.None? then job else moved.value
  }

  predicate RefundAllowed(job: Job) {
    job.payment.Paid? && job.counterConfirmedAt.Some? && job.printConfirmedAt.Some? && IsPrinted(job.status) && job.refundConfirmedAt.None?
  }

  function ConfirmRefund(job: Job, now: int): Job {
    if RefundAllowed(job) then job.(payment := Refunded, refundConfirmedAt := Some(now), updatedAt := now) else job
  }

  // ---------- runs of one job ----------

  datatype Step =
    | DoPrepare
    | DoCheckIn
    | DoAbsent
    | DoCancel
    | DoExpire(cutoff: int)
    | DoRelease(paymentConfirmed: bool, agentOnline: bool)
    | DoClaim(agent: nat, session: Option<nat>)
    | DoSpoolAccepted(agent: nat, session: Option<nat>)
    | DoSimulatorComplete(agent: nat, session: Option<nat>)
    | DoStaffConfirm
    | DoAgentFail(agent: nat, session: Option<nat>, reason: PrintError)
    | DoSweep(agents: Agents)
    | DoReconcile(id: nat, agent: nat, current: nat, inFlight: Option<set<nat>>)
    | DoRetry(agents: Agents, printerAvailable: bool, agentOnline: bool)
    | DoReturnPayment(agents: Agents)
    | DoFinishing
    | DoHandOver
    | DoRefund

  function Apply(job: Job, step: Step, now: int, limits: Limits): Job {
    match step
    case DoPrepare => Prepare(job, now)
    case DoCheckIn => CheckIn(job, now)
    case DoAbsent => MarkAbsent(job, now)
    case DoCancel => CancelOrder(job, now)
    case DoExpire(cutoff) => ExpireStale(job, cutoff, now)
    case DoRelease(confirmed, online) => Release(job, confirmed, online, now)
    case DoClaim(agent, session) => Claim(job, agent, session, now)
    case DoSpoolAccepted(agent, session) => SpoolAccepted(job, agent, session, now)
    case DoSimulatorComplete(agent, session) => SimulatorComplete(job, agent, session, now)
    case DoStaffConfirm => ConfirmSuccessfulPrint(job, now)
    case DoAgentFail(agent, session, reason) => AgentFail(job, agent, session, reason, now)
    case DoSweep(agents) => SweepOne(job, agents, now, limits)
    case DoReconcile(id, agent, session, inFlight) => ReconcileOne(job, id, agent, session, inFlight, now)
    case DoRetry(agents, available, online) => RetryPrint(job, agents, available, online, now, limits)
    case DoReturnPayment(agents) => ReturnCounterPayment(job, agents, now, limits)
    case DoFinishing => CompleteFinishing(job, now)
    case DoHandOver => HandOver(job, now)
    case DoRefund => ConfirmRefund(job, now)
  }

  /** A step with the time it happened; the agents' liveness at that time is the step's parameter. */
  datatype Timed = Timed(step: Step, now: int)

  function RunJob(job: Job, steps: seq<Timed>, limits: Limits): Job {
    if steps == [] then job
    else Apply(RunJob(job, steps[..|steps| - 1], limits), steps[|steps| - 1].step, steps[|steps| - 1].now, limits)
  }

  // ---------- money follows paper ----------

  /** Payment and paper agree with the status. */
  predicate MoneyOk(job: Job) {
    (job.printConfirmedAt.Some? <==> IsPrinted(job.status))
    && (job.status.PendingPayment? ==> job.payment.Pending?)
    && (job.status.AwaitingArrival? || InLine(job.status) ==> job.payment.CounterDue?)
    && (job.status.OtpVerified? || job.status.Printing? ==> job.payment.Paid? && job.counterConfirmedAt.Some?)
    && (IsPrinted(job.status) ==> job.counterConfirmedAt.Some? && job.payment == if job.refundConfirmedAt.Some? then Refunded else Paid)
    && (job.refundConfirmedAt.Some? ==> IsPrinted(job.status))
    && (job.status.Cancelled? ==> !job.payment.Paid? && !job.payment.CounterDue?)
    && !job.status.NoShow? && !job.status.Requeued? && !job.status.Expired?
  }

  /** A printing job has a holder and no error; until the spooler answers, its last update is its claim. */
  predicate LeaseOk(job: Job) {
    (job.status.Printing? ==> job.claimedBy.Some? && job.printError.None?)
    && (job.status.OtpVerified? ==> job.claimedBy.None?)
    && (job.status.Printing? && job.spoolAcceptedAt.None? ==> job.updatedAt == job.claimedAt)
  }

  lemma CounterStepsKeepMoney(job: Job, cutoff: int, confirmed: bool, online: bool, now: int)
    requires MoneyOk(job)
    ensures MoneyOk(Prepare(job, now)) && MoneyOk(CheckIn(job, now)) && MoneyOk(MarkAbsent(job, now))
    ensures MoneyOk(CancelOrder(job, now)) && MoneyOk(ExpireStale(job, cutoff, now)) && MoneyOk(Release(job, confirmed, online, now))
  {
  }

  lemma PaperStepsKeepMoney(job: Job, agent: nat, session: Option<nat>, now: int)
    requires MoneyOk(job)
    ensures MoneyOk(Claim(job, agent, session, now)) && MoneyOk(SpoolAccepted(job, agent, session, now))
    ensures MoneyOk(ConfirmSuccessfulPrint(job, now)) && MoneyOk(CompleteFinishing(job, now)) && MoneyOk(HandOver(job, now))
    ensures MoneyOk(ConfirmRefund(job, now))
  {
  }

  lemma FailuresKeepMoney(job: Job, agents: Agents, holder: Option<nat>, reason: PrintError, available: bool, online: bool, now: int, limits: Limits)
    requires MoneyOk(job)
    ensures MoneyOk(FailPrint(job, reason, now)) && MoneyOk(MarkPrintFailedAgentGone(job, holder, reason, now))
    ensures MoneyOk(RetryPrint(job, agents, available, online, now, limits)) && MoneyOk(ReturnCounterPayment(job, agents, now, limits))
  {
    hide IsPrintOrphaned;
  }

  /** Every step of every actor keeps payment and paper in agreement with the status. */
  lemma ApplyKeepsMoney(job: Job, step: Step, now: int, limits: Limits)
    requires MoneyOk(job)
    ensures MoneyOk(Apply(job, step, now, limits))
  {
    hide MoneyOk, Prepare, CheckIn, MarkAbsent, CancelOrder, ExpireStale, Release, Claim, SpoolAccepted, ConfirmSuccessfulPrint;
    hide CompleteFinishing, HandOver, ConfirmRefund, FailPrint, MarkPrintFailedAgentGone, RetryPrint, ReturnCounterPayment;
    match step
    case DoExpire(cutoff) => CounterStepsKeepMoney(job, cutoff, true, true, now);
    case DoRelease(confirmed, online) => CounterStepsKeepMoney(job, 0, confirmed, online, now);
    case DoClaim(agent, session) => PaperStepsKeepMoney(job, agent, session, now);
    case DoSpoolAccepted(agent, session) => PaperStepsKeepMoney(job, agent, session, now);
    case DoAgentFail(_, _, reason) => FailuresKeepMoney(job, map[], None, reason, true, true, now, limits);
    case DoRetry(agents, available, online) => FailuresKeepMoney(job, agents, None, NoAgentOnline, available, online, now, limits);
    case DoReturnPayment(agents) => FailuresKeepMoney(job, agents, None, NoAgentOnline, true, true, now, limits);
    case DoSweep(agents) =>
      var reason := PrintLostReason(job, Holder(job, agents), now, Sweep, limits);
      if reason.Some? { FailuresKeepMoney(job, agents, job.claimedBy, reason.value, true, true, now, limits); }
    case DoReconcile(_, _, _, _) => FailuresKeepMoney(job, map[], job.claimedBy, AgentRestarted, true, true, now, limits);
    case _ =>
      CounterStepsKeepMoney(job, 0, true, true, now);
      PaperStepsKeepMoney(job, 0, None, now);
  }

  lemma ApplyKeepsLease(job: Job, step: Step, now: int, limits: Limits)
    requires LeaseOk(job)
    ensures LeaseOk(Apply(job, step, now, limits))
  {
    hide PrintLostReason, AgentGoneForStaff, AgentHoldsLease, SweepCandidate, LostToSession;
  }

  /**
   * Over every run of one order: paper is confirmed exactly in the printed statuses, an order is paid
   * before it is released or prints, and a cancelled order keeps nobody's money.
   */
  lemma {:induction false} MoneyFollowsPaper(binding: bool, totalPaise: nat, shopBasePaise: nat, at: int, steps: seq<Timed>, limits: Limits)
    ensures var job := RunJob(NewJob(binding, totalPaise, shopBasePaise, at), steps, limits);
      MoneyOk(job) && LeaseOk(job) && job.totalPaise == totalPaise && job.shopBasePaise == shopBasePaise
  {
    if steps != [] {
      var before := RunJob(NewJob(binding, totalPaise, shopBasePaise, at), steps[..|steps| - 1], limits);
      MoneyFollowsPaper(binding, totalPaise, shopBasePaise, at, steps[..|steps| - 1], limits);
      var last := steps[|steps| - 1];
      ApplyKeepsMoney(before, last.step, last.now, limits);
      ApplyKeepsLease(before, last.step, last.now, limits);
      PricesAreFixed(before, last.step, last.now, limits);
    }
  }

  lemma PricesAreFixed(job: Job, step: Step, now: int, limits: Limits)
    ensures var after := Apply(job, step, now, limits);
      after.totalPaise == job.totalPaise && after.shopBasePaise == job.shopBasePaise
      && (job.printConfirmedAt.Some? && LeaseOk(job) && MoneyOk(job) ==> after.printConfirmedAt == job.printConfirmedAt)
      && (IsPrinted(job.status) ==> IsPrinted(after.status))
      && (after.refundConfirmedAt != job.refundConfirmedAt ==> step.DoRefund? && RefundAllowed(job))
  {
    hide PrintLostReason, AgentGoneForStaff, AgentHoldsLease, SweepCandidate, LostToSession;
  }

  // ---------- held failures wait for staff ----------

  predicate Held(job: Job) { job.status.OtpVerified? && StaffHeld(job.printError) }

  predicate NoRetry(steps: seq<Timed>) { forall i :: 0 <= i < |steps| ==> !steps[i].step.DoRetry? }

  /**
   * After an offline, restart or timeout failure, no run without a staff retry ever prints the job
   * again: it stays held, or is closed with its payment returned.
   */
  lemma {:induction false} HeldNeedsStaff(job: Job, steps: seq<Timed>, limits: Limits)
    requires Held(job) && NoRetry(steps)
    ensures var after := RunJob(job, steps, limits);
      Held(after) || (after.status.Cancelled? && (job.payment.Paid? ==> after.payment.Refunded?))
    ensures Held(RunJob(job, steps, limits)) ==> RunJob(job, steps, limits).payment == job.payment
  {
    if steps != [] {
      HeldNeedsStaff(job, steps[..|steps| - 1], limits);
      var before := RunJob(job, steps[..|steps| - 1], limits);
      var last := steps[|steps| - 1];
      HeldStep(before, last.step, last.now, limits);
    }
  }

  lemma HeldStep(job: Job, step: Step, now: int, limits: Limits)
    requires Held(job) || job.status.Cancelled?
    requires !step.DoRetry?
    ensures var after := Apply(job, step, now, limits);
      (job.status.Cancelled? ==> after.status.Cancelled? && after.payment == job.payment)
      && (Held(job) ==> (Held(after) && after.payment == job.payment)
                        || (after.status.Cancelled? && (job.payment.Paid? ==> after.payment.Refunded?)))
  {
    hide PrintLostReason, AgentGoneForStaff, AgentHoldsLease, SweepCandidate, LostToSession;
  }

  /** Every failure the system itself records is one of the held kind. */
  lemma SystemFailuresAreHeld(job: Job, agents: Agents, id: nat, agent: nat, session: nat, inFlight: Option<set<nat>>, now: int, limits: Limits)
    requires job.status.Printing?
    ensures SweepOne(job, agents, now, limits) == job || Held(SweepOne(job, agents, now, limits))
    ensures ReconcileOne(job, id, agent, session, inFlight, now) == job || Held(ReconcileOne(job, id, agent, session, inFlight, now))
    ensures var freed := ReleaseOrphanedPrint(job, agents, now, limits);
      freed.None? || Held(freed.value)
  {
  }

  // ---------- only the holder's reports count ----------

  predicate NoClaimBy(steps: seq<Timed>, agent: nat) {
    forall i :: 0 <= i < |steps| ==> !(steps[i].step.DoClaim? && steps[i].step.agent == agent)
  }

  /** Once an agent no longer holds a job, none of its late reports changes it until that agent claims it again. */
  lemma {:induction false} LateReportsAreIgnored(job: Job, steps: seq<Timed>, agent: nat, session: Option<nat>, reason: PrintError, now: int, limits: Limits)
    requires job.claimedBy != Some(agent) && NoClaimBy(steps, agent)
    ensures var after := RunJob(job, steps, limits);
      && after.claimedBy != Some(agent)
      && SpoolAccepted(after, agent, session, now) == after
      && SimulatorComplete(after, agent, session, now) == after
      && AgentFail(after, agent, session, reason, now) == after
  {
    if steps != [] {
      LateReportsAreIgnored(job, steps[..|steps| - 1], agent, session, reason, now, limits);
      var before := RunJob(job, steps[..|steps| - 1], limits);
      HolderChangesByClaim(before, steps[|steps| - 1].step, steps[|steps| - 1].now, limits, agent);
    }
  }

  lemma HolderChangesByClaim(job: Job, step: Step, now: int, limits: Limits, agent: nat)
    requires job.claimedBy != Some(agent) && !(step.DoClaim? && step.agent == agent)
    ensures Apply(job, step, now, limits).claimedBy != Some(agent)
  {
    hide PrintLostReason, AgentGoneForStaff, AgentHoldsLease, SweepCandidate, LostToSession;
  }

  // ---------- no print hangs for ever ----------

  /** Whatever the agent does, the claim timeout (before the spooler answers) or the spool timeout (after) gives a reason, in both modes. */
  lemma TimeoutsAlwaysGiveReason(job: Job, agent: Option<Agent>, now: int, mode: Mode, limits: Limits)
    requires job.spoolAcceptedAt.None? ==> now - job.updatedAt >= limits.claim
    requires job.spoolAcceptedAt.Some? ==> now - job.spoolAcceptedAt.value >= limits.spool
    ensures PrintLostReason(job, agent, now, mode, limits).Some?
  {
  }

  /**
   * A print within its time limits, on a computer that is online, heard from within both silence limits and
   * still running the claiming process, is never taken away: not by the sweep, not by a staff retry,
   * not by a payment return, not by the process's own registration.
   */
  lemma LivePrintIsLeftAlone(job: Job, agents: Agents, id: nat, agent: nat, session: nat, available: bool, online: bool, now: int, limits: Limits)
    requires LeaseOk(job) && job.status.Printing? && job.claimedBy == Some(agent) && job.session == Some(session)
    requires agent in agents && agents[agent].online && agents[agent].session == Some(session) && agents[agent].lastHeartbeatAt.Some?
    requires now - agents[agent].lastHeartbeatAt.value <= Min(limits.lease, STAFF_OFFLINE_AFTER_MS)
    requires job.spoolAcceptedAt.None? ==> now < job.claimedAt + limits.claim
    requires job.spoolAcceptedAt.Some? ==> now < job.spoolAcceptedAt.value + limits.spool
    ensures SweepOne(job, agents, now, limits) == job
    ensures RetryPrint(job, agents, available, online, now, limits) == job
    ensures ReturnCounterPayment(job, agents, now, limits) == job
    ensures ReconcileOne(job, id, agent, session, None, now) == job
  {
    assert PrintLostReason(job, Holder(job, agents), now, Sweep, limits).None?;
    assert PrintLostReason(job, Holder(job, agents), now, Staff, limits).None?;
  }

  // ---------- every step, column by column ----------

  /** Up to the counter: who may move the order, from where, and what it does to the payment. */
  lemma CounterStepsWrite(job: Job, cutoff: int, confirmed: bool, online: bool, now: int)
    ensures Prepare(job, now) == if job.status.PendingPayment? then job.(status := AwaitingArrival, payment := CounterDue, updatedAt := now) else job
    ensures CheckIn(job, now)
      == if job.payment in {Paid, CounterDue} && job.status in {AwaitingArrival, NoShow, Requeued} then job.(status := Queued, updatedAt := now) else job
    ensures MarkAbsent(job, now) == if job.status in {Queued, Notified} then job.(status := AwaitingArrival, updatedAt := now) else job
    ensures CancelOrder(job, now)
      == if job.payment != Paid && job.status in {PendingPayment, AwaitingArrival, Queued, Notified}
         then job.(status := Cancelled, payment := if job.payment == CounterDue then Failed else job.payment, updatedAt := now) else job
    ensures ExpireStale(job, cutoff, now)
      == if job.status == AwaitingArrival && job.payment == CounterDue && job.updatedAt < cutoff
         then job.(status := Cancelled, payment := Failed, updatedAt := now) else job
    ensures Release(job, confirmed, online, now)
      == if job.status in {AwaitingArrival, Queued, Notified, NoShow, Requeued} && (job.payment == Paid || (job.payment == CounterDue && confirmed))
         then job.(status := OtpVerified, payment := Paid, counterConfirmedAt := if job.payment == CounterDue then Some(now) else job.counterConfirmedAt,
                   claimedBy := None, session := None, printError := if online then None else Some(NoAgentOnline), updatedAt := now)
         else job
  {
  }

  /** The agent's process holds the job: it claimed it, and no other process of that computer is known to have. */
  predicate Reports(job: Job, agent: nat, session: Option<nat>) {
    job.claimedBy == Some(agent) && (job.session.None? || session.None? || job.session == session)
  }

  /** At the printer: a claim takes a free job no failure holds for staff; only the holding process reports on it. */
  lemma PrintStepsWrite(job: Job, agent: nat, session: Option<nat>, reason: PrintError, now: int)
    ensures Claim(job, agent, session, now)
      == if job.status == OtpVerified && job.claimedBy in {None, Some(agent)}
            && job.printError !in {Some(AgentOffline), Some(AgentRestarted), Some(ClaimTimeout), Some(SpoolTimeout)}
         then job.(status := Printing, claimedBy := Some(agent), session := session, printError := None,
                   printAttempts := job.printAttempts + 1, claimedAt := now, updatedAt := now)
         else job
    ensures SpoolAccepted(job, agent, session, now)
      == if job.status == Printing && Reports(job, agent, session) && job.spoolAcceptedAt.None?
         then job.(spoolAcceptedAt := Some(now), printError := None, updatedAt := now) else job
    ensures ConfirmSuccessfulPrint(job, now)
      == if job.status == Printing
         then job.(status := if job.binding then Finishing else ReadyForPickup, printConfirmedAt := Some(now), printError := None,
                   spoolAcceptedAt := if job.spoolAcceptedAt.Some? then job.spoolAcceptedAt else Some(now), updatedAt := now)
         else job
    ensures SimulatorComplete(job, agent, session, now) == if Reports(job, agent, session) then ConfirmSuccessfulPrint(job, now) else job
    ensures AgentFail(job, agent, session, reason, now)
      == if job.status == Printing && Reports(job, agent, session)
         then job.(status := OtpVerified, claimedBy := None, session := None, printError := Some(reason), updatedAt := now) else job
  {
  }

  /** After the paper: finishing, hand-over, and a refund only of a paid, counter-confirmed, printed order, once. */
  lemma ClosingStepsWrite(job: Job, now: int)
    ensures CompleteFinishing(job, now) == if job.status == Finishing then job.(status := ReadyForPickup, updatedAt := now) else job
    ensures HandOver(job, now) == if job.status == ReadyForPickup then job.(status := Completed, updatedAt := now) else job
    ensures ConfirmRefund(job, now)
      == if job.payment == Paid && job.counterConfirmedAt.Some? && job.printConfirmedAt.Some? && job.refundConfirmedAt.None?
            && job.status in {Finishing, ReadyForPickup, Completed}
         then job.(payment := Refunded, refundConfirmedAt := Some(now), updatedAt := now) else job
  {
  }

  // ---------- lost prints, column by column ----------

  /** The computer's row is gone, or it was last heard from (else created) more than `silent` ago. */
  predicate Silent(agents: Agents, holder: Option<nat>, now: int, silent: int) {
    holder.None? || holder.value !in agents
    || match agents[holder.value].lastHeartbeatAt
       case Some(at) => now - at > silent
       case None => now - agents[holder.value].createdAt > silent
  }

  /** Before any spool acknowledgement, the claiming computer runs another process than the one that claimed. */
  predicate ProcessGone(job: Job, agents: Agents) {
    job.spoolAcceptedAt.None? && job.claimedBy.Some? && job.claimedBy.value in agents
    && job.session.Some? && agents[job.claimedBy.value].session.Some? && job.session.value != agents[job.claimedBy.value].session.value
  }

  predicate LimitPassed(job: Job, now: int, limits: Limits) {
    match job.spoolAcceptedAt
    case None => now - job.updatedAt >= limits.claim
    case Some(at) => now - at >= limits.spool
  }

  /** Old enough for the sweep to look at, or of a known process and not acknowledged. */
  predicate LookedAt(job: Job, now: int, limits: Limits) {
    now - job.updatedAt > limits.lease || now - job.updatedAt > limits.claim || (job.session.Some? && job.spoolAcceptedAt.None?)
  }

  /**
   * What the sweep does to a printing job: restart first, then a computer silent for the whole lease, then the hard
   * limits; a job it fails loses its holder and waits for staff with that reason, any other stays as it is.
   */
  lemma SweepFailsIff(job: Job, agents: Agents, now: int, limits: Limits)
    requires job.status.Printing?
    ensures var after := SweepOne(job, agents, now, limits);
      var restarted := ProcessGone(job, agents);
      var silent := now - job.updatedAt >= limits.lease && Silent(agents, job.claimedBy, now, limits.lease);
      after == (if LookedAt(job, now, limits) && (restarted || silent || LimitPassed(job, now, limits)) then
                  job.(status := OtpVerified, claimedBy := None, session := None, updatedAt := now,
                       printError := Some(if restarted then AgentRestarted else if silent then AgentOffline
                                          else if job.spoolAcceptedAt.None? then ClaimTimeout else SpoolTimeout))
                else job)
  {
  }

  /** When staff may take a print back: no holder, its process or computer gone, unheard from for 45 seconds, or past a hard limit. */
  predicate MayTakeBack(job: Job, agents: Agents, now: int, limits: Limits) {
    job.claimedBy.None? || ProcessGone(job, agents) || Silent(agents, job.claimedBy, now, 45_000)
    || !agents[job.claimedBy.value].online || LimitPassed(job, now, limits)
  }

  /** A staff retry frees a printing job exactly then, and queues it again if a printer is available; otherwise it is refused. */
  lemma StaffRetryFreesIff(job: Job, agents: Agents, printerAvailable: bool, agentOnline: bool, now: int, limits: Limits)
    requires job.status.Printing?
    ensures var after := RetryPrint(job, agents, printerAvailable, agentOnline, now, limits);
      after == (if !MayTakeBack(job, agents, now, limits) then job
                else job.(status := OtpVerified, claimedBy := None, session := None, updatedAt := now,
                          printError := if !printerAvailable then Some(AgentOffline) else if agentOnline then None else Some(NoAgentOnline)))
  {
  }

  /** On an order that is not printing, a retry clears a released order's failure and sends it to a printer, and touches no other. */
  lemma RetryElsewhere(job: Job, agents: Agents, printerAvailable: bool, agentOnline: bool, now: int, limits: Limits)
    requires !job.status.Printing?
    ensures RetryPrint(job, agents, printerAvailable, agentOnline, now, limits)
      == if job.status != OtpVerified || !printerAvailable then job
         else job.(claimedBy := None, session := None, updatedAt := now, printError := if agentOnline then None else Some(NoAgentOnline))
    ensures ReturnCounterPayment(job, agents, now, limits)
      == if job.status != OtpVerified || job.payment != Paid || job.counterConfirmedAt == None then job
         else job.(status := Cancelled, payment := Refunded, claimedBy := None, session := None, printError := None, updatedAt := now)
  {
  }

  /** The guarded failure writes only while the holder is the one read and, for a restart, no acknowledgement has come. */
  lemma GuardedFailureWrites(job: Job, holder: Option<nat>, reason: PrintError, now: int)
    ensures MarkPrintFailedAgentGone(job, holder, reason, now)
      == if job.status == Printing && job.claimedBy == holder && (reason == AgentRestarted ==> job.spoolAcceptedAt == None)
         then job.(status := OtpVerified, claimedBy := None, session := None, printError := Some(reason), updatedAt := now) else job
  {
  }

  /** A payment is returned on a printing job exactly then; a job never confirmed at the counter only loses its print. */
  lemma ReturnFreesIff(job: Job, agents: Agents, now: int, limits: Limits)
    requires job.status.Printing? && job.payment.Paid? && job.counterConfirmedAt.Some?
    ensures var after := ReturnCounterPayment(job, agents, now, limits);
      after == (if !MayTakeBack(job, agents, now, limits) then job
                else job.(status := Cancelled, payment := Refunded, claimedBy := None, session := None, printError := None, updatedAt := now))
  {
  }

  /** A process registers or reports its jobs: exactly the unacknowledged prints of another process, or older ones it does not know, fail. */
  lemma ReconcileFailsIff(job: Job, id: nat, agent: nat, session: nat, inFlight: Option<set<nat>>, now: int)
    ensures var after := ReconcileOne(job, id, agent, session, inFlight, now);
      after == (if job.status.Printing? && job.claimedBy == Some(agent) && job.spoolAcceptedAt.None?
                   && ((job.session.Some? && job.session.value != session)
                       || (inFlight.Some? && id !in inFlight.value && now - job.updatedAt > 15_000))
                then job.(status := OtpVerified, claimedBy := None, session := None, printError := Some(AgentRestarted), updatedAt := now)
                else job)
  {
  }

  /** It happens: the computer goes silent right after the acknowledgement, and the first sweep past the lease fails the print. */
  lemma SilentComputerLosesPrint()
    ensures var limits := Limits(90_000, 120_000, 900_000);
      var agents: Agents := map[0 := Agent(true, Some(5), 0, Some(1))];
      && SweepOne(AcknowledgedPrint(), agents, 90_005, limits) == AcknowledgedPrint()
      && SweepOne(AcknowledgedPrint(), agents, 90_006, limits).printError == Some(AgentOffline)
      && Held(SweepOne(AcknowledgedPrint(), agents, 90_006, limits))
  {
    AcknowledgedPrintIs();
  }

  /** A sweep leaves a printing job alone exactly when the coarse query misses it or nothing of this has happened to it. */
  lemma SweepMissesExactly(job: Job, agents: Agents, now: int, limits: Limits)
    requires job.status.Printing?
    ensures SweepOne(job, agents, now, limits).status.Printing?
      <==> !LookedAt(job, now, limits)
           || !(ProcessGone(job, agents) || LimitPassed(job, now, limits)
                || (now - job.updatedAt >= limits.lease && Silent(agents, job.claimedBy, now, limits.lease)))
    ensures SweepOne(job, agents, now, limits).status.Printing? <==> SweepOne(job, agents, now, limits) == job
  {
    SweepFailsIff(job, agents, now, limits);
  }

  /**
   * On every reachable job: a sweep later than the claim limit after the claim leaves no unacknowledged
   * print running, and one at the spool limit after the acknowledgement, if also later than the
   * shorter of lease and claim limit after the last update, leaves no acknowledged one.
   */
  lemma {:induction false} SweepBoundsPrinting(binding: bool, totalPaise: nat, shopBasePaise: nat, at: int, steps: seq<Timed>, limits: Limits, agents: Agents, now: int)
    requires var job := RunJob(NewJob(binding, totalPaise, shopBasePaise, at), steps, limits);
      && job.status.Printing?
      && (job.spoolAcceptedAt.None? ==> now > job.claimedAt + limits.claim)
      && (job.spoolAcceptedAt.Some? ==>
            now >= job.spoolAcceptedAt.value + limits.spool && now > job.updatedAt + Min(limits.lease, limits.claim))
    ensures Held(SweepOne(RunJob(NewJob(binding, totalPaise, shopBasePaise, at), steps, limits), agents, now, limits))
  {
    hide PrintLostReason;
    MoneyFollowsPaper(binding, totalPaise, shopBasePaise, at, steps, limits);
    var job := RunJob(NewJob(binding, totalPaise, shopBasePaise, at), steps, limits);
    SweepMissesExactly(job, agents, now, limits);
    SystemFailuresAreHeld(job, agents, 0, 0, 0, None, now, limits);
  }

  // ---------- the acknowledgement that is never forgotten ----------

  /** A computer that is online, heard from just now, and runs the process that claimed. */
  predicate Healthy(agents: Agents, agent: nat, session: Option<nat>, now: int) {
    agent in agents && agents[agent].online && agents[agent].lastHeartbeatAt == Some(now) && agents[agent].session == session
  }

  /**
   * A print claimed this instant by a healthy computer should not be lost. It is, exactly when an
   * earlier attempt's spool acknowledgement, which no failure, retry or claim clears, is already older
   * than the spool limit.
   */
  lemma FreshClaimLostIffStaleSpool(job: Job, agents: Agents, agent: nat, session: Option<nat>, now: int, mode: Mode, limits: Limits)
    requires job.status.OtpVerified? && !StaffHeld(job.printError) && job.claimedBy.None?
    requires Healthy(agents, agent, session, now) && limits.lease > 0 && limits.claim > 0
    ensures var claimed := Claim(job, agent, session, now);
      && claimed.status.Printing?
      && (PrintLostReason(claimed, Holder(claimed, agents), now, mode, limits).Some?
          <==> job.spoolAcceptedAt.Some? && now - job.spoolAcceptedAt.value >= limits.spool)
  {
  }

  /** It happens: claim, acknowledge, time out, retry, claim again. The second attempt is lost at its first instant. */
  lemma RetryAfterSpoolTimeoutIsLostAtOnce()
    ensures var limits := Limits(90_000, 120_000, 900_000);
      var later := 1_000_000;
      var agents: Agents := map[0 := Agent(true, Some(later), 0, Some(1))];
      var failed := SweepOne(AcknowledgedPrint(), agents, later, limits);
      var again := Claim(RetryPrint(failed, agents, true, true, later, limits), 0, Some(1), later);
      && failed.printError == Some(SpoolTimeout) && again.status.Printing? && again.printAttempts == 2
      && PrintLostReason(again, Holder(again, agents), later, Staff, limits) == Some(SpoolTimeout)
      && SpoolAccepted(again, 0, Some(1), later) == again
  {
    AcknowledgedPrintIs();
    var limits := Limits(90_000, 120_000, 900_000);
    var later := 1_000_000;
    var agents: Agents := map[0 := Agent(true, Some(later), 0, Some(1))];
    var job := Job(Printing, Paid, Some(3), None, Some(0), Some(1), Some(5), None, None, 1, 5, 4, false, 300, 200);
    assert PrintLostReason(job, Holder(job, agents), later, Sweep, limits) == Some(SpoolTimeout);
    var failed := Job(OtpVerified, Paid, Some(3), None, None, None, Some(5), None, Some(SpoolTimeout), 1, later, 4, false, 300, 200);
    assert SweepOne(job, agents, later, limits) == failed;
    var retried := failed.(printError := None);
    assert RetryPrint(failed, agents, true, true, later, limits) == retried;
  }

  /** An order prepared, checked in, released, claimed and acknowledged in its first five milliseconds. */
  function AcknowledgedPrint(): Job {
    var released := Release(CheckIn(Prepare(NewJob(false, 300, 200, 0), 1), 2), true, true, 3);
    SpoolAccepted(Claim(released, 0, Some(1), 4), 0, Some(1), 5)
  }

  lemma AcknowledgedPrintIs()
    ensures AcknowledgedPrint() == Job(Printing, Paid, Some(3), None, Some(0), Some(1), Some(5), None, None, 1, 5, 4, false, 300, 200)
  {
    var checkedIn := CheckIn(Prepare(NewJob(false, 300, 200, 0), 1), 2);
    assert checkedIn == Job(Queued, CounterDue, None, None, None, None, None, None, None, 0, 2, 0, false, 300, 200);
    var released := Release(checkedIn, true, true, 3);
    assert released == Job(OtpVerified, Paid, Some(3), None, None, None, None, None, None, 0, 3, 0, false, 300, 200);
  }

  /** With a spool limit of a minute a print is past it for half a minute more before the coarse query looks at the job at all. */
  lemma SweepCanBeLateForSpool(now: int)
    requires 60_005 <= now <= 90_005
    ensures var limits := Limits(90_000, 120_000, 60_000);
      var agents: Agents := map[0 := Agent(true, Some(now), 0, Some(1))];
      && PrintLostReason(AcknowledgedPrint(), Holder(AcknowledgedPrint(), agents), now, Sweep, limits) == Some(SpoolTimeout)
      && SweepOne(AcknowledgedPrint(), agents, now, limits) == AcknowledgedPrint()
  {
    AcknowledgedPrintIs();
  }

  /** A restarted process is recognised for every job it held, except those a stale acknowledgement hides. */
  lemma RestartMissesIffAcknowledged(job: Job, id: nat, agent: nat, session: nat, inFlight: Option<set<nat>>, now: int)
    requires job.status.Printing? && job.claimedBy == Some(agent) && job.session.Some? && job.session.value != session
    ensures ReconcileOne(job, id, agent, session, inFlight, now).status.Printing? <==> job.spoolAcceptedAt.Some?
  {
  }
}
