/** The job lifecycle table: the single source of truth for status changes. */
module StateMachine {
  import opened Options

  datatype JobStatus =
    | PendingPayment | AwaitingArrival | Queued | Notified | OtpVerified | Printing | Finishing
    | ReadyForPickup | Completed | NoShow | Requeued | Expired | Cancelled

  datatype JobEvent =
    | PaymentConfirmed | CashSelected | Arrived | QueueSkipped | CounterRelease | FrontReached | OtpVerifiedEvent
    | PrintStarted | PrintCompleted | FinishingRequired | FinishingCompleted | PrintFailed
    | CashReturned | CounterPaymentReturned | HandedOver | Cancel

  /** None is the InvalidTransitionError. */
  function Transition(from: JobStatus, event: JobEvent): Option<JobStatus> {
    match from
    case PendingPayment =>
      (match event
       case PaymentConfirmed => Some(AwaitingArrival) case CashSelected => Some(AwaitingArrival)
       case Cancel => Some(Cancelled) case _ => None)
    case AwaitingArrival =>
      (match event
       case Arrived => Some(Queued) case CounterRelease => Some(OtpVerified) case Cancel => Some(Cancelled) case _ => None)
    case Queued =>
      (match event
       case FrontReached => Some(Notified) case CounterRelease => Some(OtpVerified)
       case QueueSkipped => Some(AwaitingArrival) case Cancel => Some(Cancelled) case _ => None)
    case Notified =>
      (match event
       case OtpVerifiedEvent => Some(OtpVerified) case CounterRelease => Some(OtpVerified)
       case QueueSkipped => Some(AwaitingArrival) case Cancel => Some(Cancelled) case _ => None)
    case NoShow => Rejoin(event)
    case Requeued => Rejoin(event)
    case OtpVerified =>
      (match event
       case PrintStarted => Some(Printing) case CashReturned => Some(Cancelled)
       case CounterPaymentReturned => Some(Cancelled) case _ => None)
    case Printing =>
      (match event
       case PrintCompleted => Some(ReadyForPickup) case FinishingRequired => Some(Finishing)
       case PrintFailed => Some(OtpVerified) case _ => None)
    case Finishing => if event.FinishingCompleted? then Some(ReadyForPickup) else None
    case ReadyForPickup => if event.HandedOver? then Some(Completed) else None
    case Completed => None
    case Expired => None
    case Cancelled => None
  }

  function Rejoin(event: JobEvent): Option<JobStatus> {
    match event
    case Arrived => Some(Queued) case CounterRelease => Some(OtpVerified) case QueueSkipped => Some(AwaitingArrival)
    case _ => None
  }

  /** In the live line. */
  predicate InLine(s: JobStatus) { s.Queued? || s.Notified? }

  predicate IsTerminal(s: JobStatus) { s.Completed? || s.Expired? || s.Cancelled? }

  /** The job still needs the file's content. */
  predicate NeedsFile(s: JobStatus) {
    s in {PendingPayment, AwaitingArrival, Queued, Notified, OtpVerified, Printing, NoShow, Requeued}
  }

  /** The paper exists. */
  predicate IsPrinted(s: JobStatus) { s.Finishing? || s.ReadyForPickup? || s.Completed? }

  function Follow(from: JobStatus, events: seq<JobEvent>): Option<JobStatus>
    decreases |events|
  {
    if events == [] then Some(from)
    else
      var next := Transition(from, events[0]);
      if next.None? then None else Follow(next.value, events[1..])
  }

  /** Terminal means no way out, and every other status but the retired ones can still move. */
  lemma TerminalIsExactlyStuck(s: JobStatus)
    ensures IsTerminal(s) <==> forall e: JobEvent :: Transition(s, e).None?
  {
    assert Transition(PendingPayment, Cancel).Some? && Transition(AwaitingArrival, Cancel).Some?;
    assert Transition(Queued, Cancel).Some? && Transition(Notified, Cancel).Some?;
    assert Transition(NoShow, Arrived).Some? && Transition(Requeued, Arrived).Some?;
    assert Transition(OtpVerified, PrintStarted).Some? && Transition(Printing, PrintFailed).Some?;
    assert Transition(Finishing, FinishingCompleted).Some? && Transition(ReadyForPickup, HandedOver).Some?;
  }

  /** Leaving the statuses that need the file, and reaching paper, are both one-way along every path. */
  lemma {:induction false} PathsAreOneWay(s: JobStatus, events: seq<JobEvent>)
    requires Follow(s, events).Some?
    ensures NeedsFile(Follow(s, events).value) ==> NeedsFile(s)
    ensures IsPrinted(s) ==> IsPrinted(Follow(s, events).value)
    decreases |events|
  {
    if events != [] { PathsAreOneWay(Transition(s, events[0]).value, events[1..]); }
  }

  /** The same table event by event: whatever the status, an event leads to one status only, from exactly these. */
  function Sources(e: JobEvent): set<JobStatus> {
    match e
    case PaymentConfirmed => {PendingPayment}
    case CashSelected => {PendingPayment}
    case Arrived => {AwaitingArrival, NoShow, Requeued}
    case QueueSkipped => {Queued, Notified, NoShow, Requeued}
    case CounterRelease => {AwaitingArrival, Queued, Notified, NoShow, Requeued}
    case FrontReached => {Queued}
    case OtpVerifiedEvent => {Notified}
    case PrintStarted => {OtpVerified}
    case PrintCompleted => {Printing}
    case FinishingRequired => {Printing}
    case FinishingCompleted => {Finishing}
    case PrintFailed => {Printing}
    case CashReturned => {OtpVerified}
    case CounterPaymentReturned => {OtpVerified}
    case HandedOver => {ReadyForPickup}
    case Cancel => {PendingPayment, AwaitingArrival, Queued, Notified}
  }

  function Target(e: JobEvent): JobStatus {
    match e
    case PaymentConfirmed => AwaitingArrival
    case CashSelected => AwaitingArrival
    case Arrived => Queued
    case QueueSkipped => AwaitingArrival
    case CounterRelease => OtpVerified
    case FrontReached => Notified
    case OtpVerifiedEvent => OtpVerified
    case PrintStarted => Printing
    case PrintCompleted => ReadyForPickup
    case FinishingRequired => Finishing
    case FinishingCompleted => ReadyForPickup
    case PrintFailed => OtpVerified
    case CashReturned => Cancelled
    case CounterPaymentReturned => Cancelled
    case HandedOver => Completed
    case Cancel => Cancelled
  }

  lemma EventHasOneTarget(from: JobStatus, e: JobEvent)
    ensures Transition(from, e) == if from in Sources(e) then Some(Target(e)) else None
  {
  }

  predicate ConfirmsPaper(e: JobEvent) { e.PrintCompleted? || e.FinishingRequired? }

  /** Paper is reached only through printing: a path from before to after passes a print confirmation. */
  lemma {:induction false} PaperNeedsConfirmation(s: JobStatus, events: seq<JobEvent>)
    requires Follow(s, events).Some? && !IsPrinted(s) && IsPrinted(Follow(s, events).value)
    ensures exists k :: 0 <= k < |events| && ConfirmsPaper(events[k]) && Follow(s, events[..k]) == Some(Printing)
    decreases |events|
  {
    var t := Transition(s, events[0]).value;
    if IsPrinted(t) {
      assert events[..0] == [];
      assert Follow(s, events[..0]) == Some(Printing);
    } else {
      PaperNeedsConfirmation(t, events[1..]);
      var k :| 0 <= k < |events[1..]| && ConfirmsPaper(events[1..][k]) && Follow(t, events[1..][..k]) == Some(Printing);
      assert events[..k + 1][1..] == events[1..][..k];
      assert events[..k + 1][0] == events[0];
      assert Follow(s, events[..k + 1]) == Some(Printing);
    }
  }
}
