/** The counter-code input: which obstacle a release meets first, and what each answer writes. */
module CounterRelease {
  import opened Options
  import opened Numbers
  import opened StateMachine
  import opened CounterLine
  import opened RevealPass
  import QB = QueueBands

  datatype Method = Cash | ShopUpi

  datatype Payment = CounterDue | Paid(paidBy: Method, amountPaise: nat, confirmedAt: int)

  datatype Order = Order(payment: Payment, totalPaise: nat)

  /** What staff sent, and what the printer ranking answered for this job. */
  datatype Request = Request(manualPrinter: Option<string>, overrideQueue: bool, confirmation: Option<Method>,
                             eligible: seq<string>, recommended: Option<string>)

  datatype Settings = Settings(autoAssign: bool, upiVerified: bool)

  datatype Answer =
    | InvalidCode
    | AlreadyReleased
    | AlreadyPrinted
    | NeedsQueueOverride(position: Option<nat>)
    | NeedsManualAssignment
    | PrinterUnavailable
    | NeedsPaymentConfirmation(amountPaise: nat, printer: string)
    | UpiNotVerified
    | StateChanged
    | Released(printer: string)

  datatype Desk = Desk(shop: Shop, orders: seq<Order>)

  predicate IsRecoverable(s: JobStatus) {
    s.AwaitingArrival? || s.Queued? || s.Notified? || s.NoShow? || s.Requeued?
  }

  /** Statuses the code lookup finds. */
  predicate IsLookedUp(s: JobStatus) {
    IsRecoverable(s) || s.OtpVerified? || s.Printing? || s.Finishing? || s.ReadyForPickup?
  }

  /** In line and showing its code. */
  predicate InNormalWindow(shop: Shop, row: nat)
    requires row < |shop.rows|
  {
    var place := PlaceOf(Line(shop.rows), row);
    InLine(shop.rows[row].status) && place.Some? && Bands(LineJobs(shop.rows), shop.capacity)[place.value].Revealed?
  }

  function PositionOf(shop: Shop, row: nat): Option<nat> {
    var place := PlaceOf(Line(shop.rows), row);
    if place.Some? then Some(place.value + 1) else None
  }

  /** The printer a release would use; None asks staff to choose. */
  function ChoosePrinter(current: Option<string>, settings: Settings, rq: Request): Option<string> {
    if rq.manualPrinter.Some? then rq.manualPrinter
    else
      var automatic := if current.Some? && current.value in rq.eligible then current else rq.recommended;
      if settings.autoAssign then automatic else None
  }

  /** The decision, in the order the obstacles are checked. */
  function Decide(d: Desk, row: nat, settings: Settings, rq: Request): Answer
    requires row < |d.shop.rows| == |d.orders|
  {
    var r := d.shop.rows[row];
    var printer := ChoosePrinter(r.job.printerId, settings, rq);
    if !IsLookedUp(r.status) then InvalidCode
    else if r.status.OtpVerified? || r.status.Printing? || r.status.Finishing? then AlreadyReleased
    else if r.status.ReadyForPickup? then AlreadyPrinted
    else if !InNormalWindow(d.shop, row) && !rq.overrideQueue then NeedsQueueOverride(PositionOf(d.shop, row))
    else if printer.None? then NeedsManualAssignment
    else if rq.manualPrinter.Some? && printer.value !in rq.eligible then PrinterUnavailable
    else if d.orders[row].payment.CounterDue? && rq.confirmation.None? then NeedsPaymentConfirmation(d.orders[row].totalPaise, printer.value)
    else if rq.confirmation == Some(ShopUpi) && !settings.upiVerified then UpiNotVerified
    else Released(printer.value)
  }

  /** Staff are mid-flow with the student in front of them. */
  predicate Pauses(a: Answer) { a.NeedsQueueOverride? || a.NeedsManualAssignment? || a.NeedsPaymentConfirmation? }

  /** The conditional update of a release decided when the job had the status `seen`: it loses if the status moved on. */
  function Commit(d: Desk, row: nat, seen: JobStatus, printer: string, confirmation: Option<Method>, now: int): (Desk, Answer)
    requires row < |d.shop.rows| == |d.orders|
    requires d.orders[row].payment.CounterDue? ==> confirmation.Some?
  {
    var current := d.shop.rows[row].status;
    if current != seen || Transition(seen, JobEvent.CounterRelease).None? then
      (d, if IsRecoverable(current) && current != seen then NeedsQueueOverride(None) else StateChanged)
    else
      var freed := Release(d.shop, row, now);
      var order := d.orders[row];
      (Desk(Put(freed, row, freed.rows[row].(job := freed.rows[row].job.(printerId := Some(printer)))),
            d.orders[row := if order.payment.CounterDue? then order.(payment := Paid(confirmation.value, order.totalPaise, now)) else order]),
       Released(printer))
  }

  function Effect(d: Desk, row: nat, settings: Settings, rq: Request, now: int): Desk
    requires row < |d.shop.rows| == |d.orders|
  {
    var a := Decide(d, row, settings, rq);
    if Pauses(a) then d.(shop := Disarm(d.shop, row, now))
    else if a.Released? then Commit(d, row, d.shop.rows[row].status, a.printer, rq.confirmation, now).0
    else d
  }

  // ---------- what the answers mean ----------

  /** A release completes exactly when nothing stands in its way. */
  lemma ReleasedIffUnobstructed(d: Desk, row: nat, settings: Settings, rq: Request)
    requires row < |d.shop.rows| == |d.orders|
    ensures var r := d.shop.rows[row];
      Decide(d, row, settings, rq).Released? <==>
        (&& IsRecoverable(r.status)
         && (InNormalWindow(d.shop, row) || rq.overrideQueue)
         && (if rq.manualPrinter.Some? then rq.manualPrinter.value in rq.eligible
             else settings.autoAssign && ((r.job.printerId.Some? && r.job.printerId.value in rq.eligible) || rq.recommended.Some?))
         && (d.orders[row].payment.CounterDue? ==> rq.confirmation.Some?)
         && (rq.confirmation == Some(ShopUpi) ==> settings.upiVerified))
  {
    hide InNormalWindow;
  }

  // ---------- every answer, exactly ----------

  /** A shop the line's events lead to, check-ins committing one after the other. */
  ghost predicate Reachable(shop: Shop) {
    exists capacity, graceSeconds, events :: CheckInsIncrease(events) && shop == Run(Shop([], capacity, graceSeconds), events)
  }

  /** The job stands at a place the counter serves: among the first max(revealed, capacity) of the line. */
  predicate AtCounter(shop: Shop, row: nat) {
    exists p :: 0 <= p < |Line(shop.rows)| && Line(shop.rows)[p] == row && p < Max(Revealed(shop.rows), QB.Cap(shop.capacity))
  }

  lemma WindowIsPlace(shop: Shop, row: nat)
    requires Reachable(shop) && row < |shop.rows|
    ensures InNormalWindow(shop, row) <==> AtCounter(shop, row)
    ensures forall p: nat :: p < |Line(shop.rows)| && Line(shop.rows)[p] == row ==> PositionOf(shop, row) == Some(p + 1)
    ensures row !in Line(shop.rows) ==> PositionOf(shop, row).None?
  {
    hide Run, Bands, Line;
    var capacity, graceSeconds, events :| CheckInsIncrease(events) && shop == Run(Shop([], capacity, graceSeconds), events);
    LineSpec(shop.rows);
    var place := PlaceOf(Line(shop.rows), row);
    if place.Some? { ReachableBands(capacity, graceSeconds, events, place.value); }
  }

  predicate MayLeaveCounter(s: JobStatus) { s in {AwaitingArrival, Queued, Notified, NoShow, Requeued} }

  /**
   * Serving out of turn is asked for exactly when the order can be released, staff did not ask for it, and the job
   * does not stand among the first max(revealed, capacity) of the line; the answer shows its position, if it has one.
   */
  lemma OverrideAskedIff(d: Desk, row: nat, settings: Settings, rq: Request)
    requires Reachable(d.shop) && row < |d.shop.rows| == |d.orders|
    ensures var a := Decide(d, row, settings, rq);
      && (a.NeedsQueueOverride? <==> MayLeaveCounter(d.shop.rows[row].status) && !rq.overrideQueue && !AtCounter(d.shop, row))
      && (a.NeedsQueueOverride? ==>
            (forall p: nat :: p < |Line(d.shop.rows)| && Line(d.shop.rows)[p] == row ==> a.position == Some(p + 1))
            && (row !in Line(d.shop.rows) ==> a.position.None?))
  {
    hide InNormalWindow, PositionOf, AtCounter, Line;
    WindowIsPlace(d.shop, row);
  }

  /**
   * For a job in line, the override is asked for exactly when a pass at that moment would leave it unrevealed; so a
   * student who is shown the code never needs one, and a student who is not yet due always does.
   */
  lemma RevealedNeedsNoOverride(d: Desk, row: nat, settings: Settings, rq: Request, now: int)
    requires Reachable(d.shop) && row < |d.shop.rows| == |d.orders| && InLine(d.shop.rows[row].status)
    ensures Decide(d, row, settings, rq).NeedsQueueOverride?
      <==> !rq.overrideQueue && PassTable(d.shop, now).rows[row].job.revealedAt.None?
    ensures d.shop.rows[row].job.revealedAt.Some? ==> !Decide(d, row, settings, rq).NeedsQueueOverride?
  {
    hide RunPass, Bands, PositionOf, Reachable, AtCounter;
    LineSpec(d.shop.rows);
    var place := PlaceOf(Line(d.shop.rows), row).value;
    PassRevealsTheBand(LineJobs(d.shop.rows), d.shop.capacity, d.shop.graceSeconds, now);
    assert LineJobs(d.shop.rows)[place] == d.shop.rows[row].job;
  }

  /** The printer a release may name: the one staff chose, else the current one while it is eligible, else the recommended one. */
  function PrinterFor(current: Option<string>, rq: Request): Option<string> {
    match rq.manualPrinter
    case Some(chosen) => Some(chosen)
    case None => if exists k :: 0 <= k < |rq.eligible| && Some(rq.eligible[k]) == current then current else rq.recommended
  }

  /** Past the queue check, each answer exactly. */
  lemma AnswersExactly(d: Desk, row: nat, settings: Settings, rq: Request)
    requires Reachable(d.shop) && row < |d.shop.rows| == |d.orders|
    ensures var a, r, order, printer := Decide(d, row, settings, rq), d.shop.rows[row], d.orders[row], PrinterFor(d.shop.rows[row].job.printerId, rq);
      var served := MayLeaveCounter(r.status) && (rq.overrideQueue || AtCounter(d.shop, row));
      var unconfirmed := order.payment.CounterDue? && rq.confirmation.None?;
      && (a.AlreadyReleased? <==> r.status in {OtpVerified, Printing, Finishing})
      && (a.AlreadyPrinted? <==> r.status.ReadyForPickup?)
      && (a.InvalidCode? <==> !MayLeaveCounter(r.status) && r.status !in {OtpVerified, Printing, Finishing, ReadyForPickup})
      && (a.NeedsManualAssignment? <==> served && rq.manualPrinter.None? && (printer.None? || !settings.autoAssign))
      && (a.PrinterUnavailable? <==> served && rq.manualPrinter.Some? && rq.manualPrinter.value !in rq.eligible)
      && var hasPrinter := served && !a.NeedsManualAssignment? && !a.PrinterUnavailable?;
      && (a.NeedsPaymentConfirmation? <==> hasPrinter && unconfirmed)
      && (a.NeedsPaymentConfirmation? ==> Some(a.printer) == printer && a.amountPaise == order.totalPaise)
      && (a.UpiNotVerified? <==> hasPrinter && !unconfirmed && rq.confirmation == Some(ShopUpi) && !settings.upiVerified)
      && (a.Released? <==> hasPrinter && !unconfirmed && (rq.confirmation == Some(ShopUpi) ==> settings.upiVerified))
      && (a.Released? ==> Some(a.printer) == printer)
  {
    hide InNormalWindow, PositionOf, AtCounter, Line, Reachable;
    WindowIsPlace(d.shop, row);
  }

  /**
   * What an answer writes: a completing release moves the job to that printer's queue, and off any place it never checked in
   * for; a pausing one stops the absent timer of a job in line; every other answer writes nothing, and no other row is touched.
   */
  lemma AnswerWrites(d: Desk, row: nat, settings: Settings, rq: Request, now: int)
    requires row < |d.shop.rows| == |d.orders|
    ensures var a, before, t := Decide(d, row, settings, rq), d.shop.rows[row], Effect(d, row, settings, rq, now);
      && |t.shop.rows| == |d.shop.rows| && (forall i :: 0 <= i < |d.shop.rows| && i != row ==> t.shop.rows[i] == d.shop.rows[i])
      && t.shop.rows[row]
         == (if a.Released? then
               JobRow(OtpVerified, before.job.(printerId := Some(a.printer), updatedAt := now,
                                               queuedAt := if before.status in {Queued, Notified} then before.job.queuedAt else None))
             else if (a.NeedsQueueOverride? || a.NeedsManualAssignment? || a.NeedsPaymentConfirmation?)
                     && before.status in {Queued, Notified} && before.job.revealDeadlineAt.Some? then
               before.(job := before.job.(revealDeadlineAt := None, updatedAt := now))
             else before)
  {
    hide InNormalWindow, PositionOf;
  }

  /**
   * Money is recorded by a completing release and by nothing else: always the server's own total, by the
   * method staff confirmed, never twice.
   */
  lemma MoneyOnlyOnRelease(d: Desk, row: nat, settings: Settings, rq: Request, now: int, i: nat)
    requires row < |d.shop.rows| == |d.orders| && i < |d.orders|
    ensures var after := Effect(d, row, settings, rq, now);
      && |after.orders| == |d.orders|
      && (after.orders[i] != d.orders[i] <==>
            i == row && d.orders[i].payment.CounterDue? && Decide(d, row, settings, rq).Released?)
      && (after.orders[i] != d.orders[i] ==>
            after.orders[i].payment == Paid(rq.confirmation.value, d.orders[i].totalPaise, now))
      && (Decide(d, row, settings, rq).Released? ==> after.orders[row].payment.Paid? && after.shop.rows[row].status.OtpVerified?)
  {
    hide InNormalWindow;
  }

  /** A completing release takes its own place out of the line and no other; a pausing one leaves the line as it is. */
  lemma LineAfterRelease(d: Desk, row: nat, settings: Settings, rq: Request, now: int)
    requires row < |d.shop.rows| == |d.orders|
    ensures var a, before, after := Decide(d, row, settings, rq), Line(d.shop.rows), Line(Effect(d, row, settings, rq, now).shop.rows);
      && (!a.Released? ==> after == before)
      && (a.Released? ==> row !in after && (row !in before ==> after == before)
                          && (row in before ==> exists p :: 0 <= p < |before| && before[p] == row && after == Changed(before, Left(p))))
  {
    hide InNormalWindow, Line;
    var a, rows, next := Decide(d, row, settings, rq), d.shop.rows, Effect(d, row, settings, rq, now).shop.rows;
    LineSpec(rows);
    LineSpec(next);
    if a.Released? && InLine(rows[row].status) {
      var p := PlaceOf(Line(rows), row).value;
      assert next == rows[row := next[row]];
      LeavingKeepsOrder(rows, row, next[row], p);
      assert Line(rows)[p] == row && Line(next) == Changed(Line(rows), Left(p));
    } else {
      SameKeysSameLine(rows, next);
    }
  }

  /**
   * Of two releases decided on the same reading of one order only the first commits: it alone moves the job
   * and records money, and the second writes nothing.
   */
  lemma OneOfTwoReleasesCommits(d: Desk, row: nat, seen: JobStatus, first: string, second: string,
                                c1: Option<Method>, c2: Option<Method>, now: int, later: int)
    requires row < |d.shop.rows| == |d.orders| && (d.orders[row].payment.CounterDue? ==> c1.Some? && c2.Some?)
    requires Commit(d, row, seen, first, c1, now).1.Released?
    ensures var t := Commit(d, row, seen, first, c1, now).0;
      && row < |t.shop.rows| == |t.orders| && t.orders[row].payment.Paid?
      && Commit(t, row, seen, second, c2, later) == (t, StateChanged)
  {
  }

  /** A release that finds another status than it read, an absence or a cancellation in between, writes nothing. */
  lemma StaleReleaseWritesNothing(d: Desk, row: nat, seen: JobStatus, printer: string, c: Option<Method>, now: int)
    requires row < |d.shop.rows| == |d.orders| && (d.orders[row].payment.CounterDue? ==> c.Some?)
    requires IsRecoverable(seen)
    ensures var (t, a) := Commit(d, row, seen, printer, c, now);
      && (a.Released? <==> d.shop.rows[row].status == seen)
      && (!a.Released? ==> t == d && (a.NeedsQueueOverride? <==> IsRecoverable(d.shop.rows[row].status)))
  {
  }

  // ---------- a disarmed timer stays disarmed ----------

  /** In line, revealed, and without a deadline. */
  predicate InHand(shop: Shop, row: nat) {
    row < |shop.rows| && InLine(shop.rows[row].status) && shop.rows[row].job.revealedAt.Some? && shop.rows[row].job.revealDeadlineAt.None?
  }

  /** The event is staff, the student or a release acting on this very job. */
  predicate ActsOn(e: LineEvent, row: nat) {
    (e.MarkedAbsent? && e.row == row) || (e.ReleasedAtCounter? && e.row == row) || (e.CancelledByStudent? && e.row == row)
  }

  lemma StepKeepsInHand(shop: Shop, e: LineEvent, now: int, row: nat)
    requires InHand(shop, row) && !ActsOn(e, row)
    ensures InHand(Step(shop, e, now), row)
  {
    hide Line;
    if e.PassRun? {
      LineSpec(shop.rows);
      var place := PlaceOf(Line(shop.rows), row).value;
      PassRevealsTheBand(LineJobs(shop.rows), shop.capacity, shop.graceSeconds, now);
      assert LineJobs(shop.rows)[place] == shop.rows[row].job;
    }
  }

  function RunFrom(shop: Shop, events: seq<TimedEvent>): Shop {
    if events == [] then shop
    else Step(RunFrom(shop, events[..|events| - 1]), events[|events| - 1].event, events[|events| - 1].now)
  }

  lemma {:induction false} InHandLasts(shop: Shop, events: seq<TimedEvent>, row: nat)
    requires InHand(shop, row) && forall i :: 0 <= i < |events| ==> !ActsOn(events[i].event, row)
    ensures InHand(RunFrom(shop, events), row)
  {
    if events != [] {
      InHandLasts(shop, events[..|events| - 1], row);
      StepKeepsInHand(RunFrom(shop, events[..|events| - 1]), events[|events| - 1].event, events[|events| - 1].now, row);
    }
  }

  /**
   * Once a code lookup has paused on a revealed job, no timer, sweep, pass, capacity change or other
   * customer ever takes its place away: only staff, the student or a release of that job does.
   */
  lemma PausedStudentKeepsPlace(d: Desk, row: nat, settings: Settings, rq: Request, now: int, events: seq<TimedEvent>)
    requires row < |d.shop.rows| == |d.orders|
    requires Pauses(Decide(d, row, settings, rq)) && InLine(d.shop.rows[row].status) && d.shop.rows[row].job.revealedAt.Some?
    requires forall i :: 0 <= i < |events| ==> !ActsOn(events[i].event, row)
    ensures var later := RunFrom(Effect(d, row, settings, rq, now).shop, events);
      row < |later.rows| && InLine(later.rows[row].status) && row in Line(later.rows)
  {
    hide Decide, RunFrom, Step;
    InHandLasts(Effect(d, row, settings, rq, now).shop, events, row);
    LineSpec(RunFrom(Effect(d, row, settings, rq, now).shop, events).rows);
  }

  // ---------- the handler in its own form ----------

  class Till {
    var rows: seq<JobRow>
    var orders: seq<Order>
    var capacity: int
    var graceSeconds: int

    function State(): Desk
      reads this
    {
      Desk(Shop(rows, capacity, graceSeconds), orders)
    }

    method DisarmAbsentTimer(row: nat, now: int)
      requires row < |rows|
      modifies this`rows
      ensures State().shop == Disarm(old(State()).shop, row, now)
    {
      if !InLine(rows[row].status) || rows[row].job.revealDeadlineAt.None? { return; }
      rows := rows[row := rows[row].(job := rows[row].job.(revealDeadlineAt := None, updatedAt := now))];
    }

    /** `releaseByOtp`, once the code has (or has not) matched a row. */
    method ReleaseByOtp(matched: Option<nat>, settings: Settings, rq: Request, now: int) returns (answer: Answer)
      requires matched.Some? ==> matched.value < |rows| == |orders|
      modifies this`rows, this`orders
      ensures matched.None? ==> answer.InvalidCode? && State() == old(State())
      ensures matched.Some? ==> answer == Decide(old(State()), matched.value, settings, rq)
                                && State() == Effect(old(State()), matched.value, settings, rq, now)
    {
      hide InNormalWindow, PositionOf;
      if matched.None? { return InvalidCode; }
      var row := matched.value;
      var job := rows[row];
      if !IsLookedUp(job.status) { return InvalidCode; }
      if job.status.OtpVerified? || job.status.Printing? || job.status.Finishing? { return AlreadyReleased; }
      if job.status.ReadyForPickup? { return AlreadyPrinted; }
      var inWindow := InNormalWindow(Shop(rows, capacity, graceSeconds), row);
      if !inWindow && !rq.overrideQueue {
        answer := NeedsQueueOverride(PositionOf(Shop(rows, capacity, graceSeconds), row));
        DisarmAbsentTimer(row, now);
        return;
      }
      var printer := rq.manualPrinter;
      if printer.None? {
        var stillEligible := job.job.printerId.Some? && job.job.printerId.value in rq.eligible;
        printer := if stillEligible then job.job.printerId else rq.recommended;
        if printer.None? || !settings.autoAssign {
          DisarmAbsentTimer(row, now);
          return NeedsManualAssignment;
        }
      } else if printer.value !in rq.eligible {
        return PrinterUnavailable;
      }
      var isDue := orders[row].payment.CounterDue?;
      if isDue && rq.confirmation.None? {
        DisarmAbsentTimer(row, now);
        return NeedsPaymentConfirmation(orders[row].totalPaise, printer.value);
      }
      if rq.confirmation == Some(ShopUpi) && !settings.upiVerified { return UpiNotVerified; }
      answer := CommitRelease(row, job.status, printer.value, rq.confirmation, now);
    }

    /** The last statement of the release; `seen` is the status its first statement read. */
    method CommitRelease(row: nat, seen: JobStatus, printer: string, confirmation: Option<Method>, now: int) returns (answer: Answer)
      requires row < |rows| == |orders| && (orders[row].payment.CounterDue? ==> confirmation.Some?)
      modifies this`rows, this`orders
      ensures (State(), answer) == Commit(old(State()), row, seen, printer, confirmation, now)
    {
      ghost var before := State();
      var current := rows[row].status;
      if current != seen || Transition(seen, JobEvent.CounterRelease).None? {
        return if IsRecoverable(current) && current != seen then NeedsQueueOverride(None) else StateChanged;
      }
      var queued := if InLine(current) then rows[row].job else rows[row].job.(queuedAt := None);
      rows := rows[row := JobRow(OtpVerified, queued.(updatedAt := now, printerId := Some(printer)))];
      if orders[row].payment.CounterDue? {
        orders := orders[row := orders[row].(payment := Paid(confirmation.value, orders[row].totalPaise, now))];
      }
      answer := Released(printer);
      assert rows == Commit(before, row, seen, printer, confirmation, now).0.shop.rows;
      assert orders == Commit(before, row, seen, printer, confirmation, now).0.orders;
    }
  }
}
