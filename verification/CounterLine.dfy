/** The shop's live line over whole runs: check-in, absence, release, cancellation, capacity changes, reveal passes. */
module CounterLine {
  import opened Options
  import opened Numbers
  import opened RowOrder
  import opened StateMachine
  import QB = QueueBands
  import opened RevealPass

  datatype JobRow = JobRow(status: JobStatus, job: QueueJob)

  datatype Shop = Shop(rows: seq<JobRow>, capacity: int, graceSeconds: int)

  // ---------- the line ----------

  /** `queuedAt ASC` (nulls last), then `createdAt ASC`. */
  function KeyOf(job: QueueJob): Key {
    match job.queuedAt case Some(t) => Key(0, t, job.createdAt) case None => Key(1, 0, job.createdAt)
  }

  function LineKeys(rows: seq<JobRow>): (r: seq<Key>)
    ensures |r| == |rows|
  {
    seq(|rows|, i requires 0 <= i < |rows| => KeyOf(rows[i].job))
  }

  function LinePick(rows: seq<JobRow>): (r: seq<bool>)
    ensures |r| == |rows|
  {
    seq(|rows|, i requires 0 <= i < |rows| => InLine(rows[i].status))
  }

  /** Row numbers of the active checked-in jobs, in line order. */
  function Line(rows: seq<JobRow>): (r: seq<nat>)
    ensures InRange(r, |rows|)
  {
    Select(LineKeys(rows), LinePick(rows))
  }

  function JobsAt(rows: seq<JobRow>, line: seq<nat>): (r: seq<QueueJob>)
    requires InRange(line, |rows|)
    ensures |r| == |line|
  {
    seq(|line|, k requires 0 <= k < |line| => rows[line[k]].job)
  }

  function LineJobs(rows: seq<JobRow>): seq<QueueJob> { JobsAt(rows, Line(rows)) }

  function Revealed(rows: seq<JobRow>): nat { QB.RevealedCount(BandInputs(LineJobs(rows))) }

  function PlaceOf(line: seq<nat>, row: nat): (r: Option<nat>)
    ensures r.Some? ==> r.value < |line| && line[r.value] == row
    ensures r.None? ==> row !in line
  {
    if line == [] then None
    else if line[|line| - 1] == row then Some(|line| - 1)
    else
      assert line == line[..|line| - 1] + [line[|line| - 1]];
      PlaceOf(line[..|line| - 1], row)
  }

  // ---------- events ----------

  datatype LineEvent =
    | Prepared(prepared: QueueJob)
    | CheckedIn(row: nat, printerId: string)
    | MarkedAbsent(row: nat)
    | GraceExpired(row: nat)
    | ReleasedAtCounter(row: nat)
    | CancelledByStudent(row: nat)
    | TimerDisarmed(row: nat)
    | SettingsChanged(capacity: int, graceSeconds: int)
    | PassRun

  datatype TimedEvent = TimedEvent(event: LineEvent, now: int)

  function Put(shop: Shop, row: nat, r: JobRow): Shop
    requires row < |shop.rows|
  {
    shop.(rows := shop.rows[row := r])
  }

  /** A fresh place at the back of the line; earlier reveal state is discarded. */
  function CheckIn(shop: Shop, row: nat, printerId: string, now: int): Shop {
    if row < |shop.rows| && shop.rows[row].status in {AwaitingArrival, NoShow, Requeued} then
      var r := shop.rows[row];
      Put(shop, row, JobRow(Transition(r.status, Arrived).value,
        r.job.(queuedAt := Some(now), revealedAt := None, revealDeadlineAt := None, arrivingNotifiedAt := None,
               printerId := Some(printerId), checkInCount := r.job.checkInCount + 1, updatedAt := now)))
    else shop
  }

  /** The place is lost and the code hidden again; `overdueOnly` is the timer's guard in the same UPDATE. */
  function MarkAbsent(shop: Shop, row: nat, overdueOnly: bool, now: int): Shop {
    if row < |shop.rows| && InLine(shop.rows[row].status)
       && (overdueOnly ==> shop.rows[row].job.revealedAt.Some? && shop.rows[row].job.revealDeadlineAt.Some?
                           && shop.rows[row].job.revealDeadlineAt.value <= now)
    then
      var r := shop.rows[row];
      Put(shop, row, JobRow(Transition(r.status, QueueSkipped).value,
        r.job.(queuedAt := None, revealedAt := None, revealDeadlineAt := None, arrivingNotifiedAt := None, updatedAt := now)))
    else shop
  }

  /** A counter-code release; a job that never checked in gets no queue position from it. */
  function Release(shop: Shop, row: nat, now: int): Shop {
    if row < |shop.rows| && Transition(shop.rows[row].status, CounterRelease).Some? then
      var r := shop.rows[row];
      var job := if InLine(r.status) then r.job else r.job.(queuedAt := None);
      Put(shop, row, JobRow(Transition(r.status, CounterRelease).value, job.(updatedAt := now)))
    else shop
  }

  function CancelJob(shop: Shop, row: nat, now: int): Shop {
    if row < |shop.rows| && shop.rows[row].status in {AwaitingArrival, Queued, Notified, PendingPayment} then
      Put(shop, row, JobRow(Transition(shop.rows[row].status, Cancel).value, shop.rows[row].job.(updatedAt := now)))
    else shop
  }

  function Disarm(shop: Shop, row: nat, now: int): Shop {
    if row < |shop.rows| && InLine(shop.rows[row].status) && shop.rows[row].job.revealDeadlineAt.Some? then
      Put(shop, row, shop.rows[row].(job := shop.rows[row].job.(revealDeadlineAt := None, updatedAt := now)))
    else shop
  }

  /** The locked pass, written back to the table rows. */
  function PassTable(shop: Shop, now: int): (r: Shop)
    ensures |r.rows| == |shop.rows| && r.capacity == shop.capacity && r.graceSeconds == shop.graceSeconds
  {
    var line := Line(shop.rows);
    var after := RunPass(LineJobs(shop.rows), shop.capacity, shop.graceSeconds, now);
    shop.(rows := seq(|shop.rows|, i requires 0 <= i < |shop.rows| =>
      var place := PlaceOf(line, i);
      if place.Some? then shop.rows[i].(job := after[place.value]) else shop.rows[i]))
  }

  function Step(shop: Shop, e: LineEvent, now: int): Shop {
    match e
    case Prepared(job) => shop.(rows := shop.rows + [JobRow(AwaitingArrival, job)])
    case CheckedIn(row, printerId) => CheckIn(shop, row, printerId, now)
    case MarkedAbsent(row) => MarkAbsent(shop, row, false, now)
    case GraceExpired(row) => MarkAbsent(shop, row, true, now)
    case ReleasedAtCounter(row) => Release(shop, row, now)
    case CancelledByStudent(row) => CancelJob(shop, row, now)
    case TimerDisarmed(row) => Disarm(shop, row, now)
    case SettingsChanged(capacity, grace) => shop.(capacity := capacity, graceSeconds := grace)
    case PassRun => PassTable(shop, now)
  }

  // ---------- what each step writes ----------

  /** Each step touches its own row only, from exactly these statuses and columns; otherwise it writes nothing. */
  lemma LineStepsWrite(shop: Shop, row: nat, printerId: string, overdueOnly: bool, now: int)
    requires row < |shop.rows|
    ensures var r := shop.rows[row];
      && CheckIn(shop, row, printerId, now)
         == (if r.status !in {AwaitingArrival, NoShow, Requeued} then shop
             else Put(shop, row, JobRow(Queued, r.job.(queuedAt := Some(now), revealedAt := None, revealDeadlineAt := None, arrivingNotifiedAt := None,
                                                       printerId := Some(printerId), checkInCount := r.job.checkInCount + 1, updatedAt := now))))
      && MarkAbsent(shop, row, overdueOnly, now)
         == (if r.status !in {Queued, Notified}
                || (overdueOnly && (r.job.revealedAt == None || r.job.revealDeadlineAt == None || now < r.job.revealDeadlineAt.value)) then shop
             else Put(shop, row, JobRow(AwaitingArrival, r.job.(queuedAt := None, revealedAt := None, revealDeadlineAt := None,
                                                                arrivingNotifiedAt := None, updatedAt := now))))
      && CancelJob(shop, row, now)
         == (if r.status !in {PendingPayment, AwaitingArrival, Queued, Notified} then shop
             else Put(shop, row, JobRow(Cancelled, r.job.(updatedAt := now))))
      && Release(shop, row, now)
         == (if r.status !in {AwaitingArrival, Queued, Notified, NoShow, Requeued} then shop
             else Put(shop, row, JobRow(OtpVerified, r.job.(queuedAt := if r.status in {Queued, Notified} then r.job.queuedAt else None, updatedAt := now))))
      && Disarm(shop, row, now)
         == (if r.status !in {Queued, Notified} || r.job.revealDeadlineAt == None then shop
             else Put(shop, row, r.(job := r.job.(revealDeadlineAt := None, updatedAt := now))))
    ensures forall capacity, graceSeconds :: Step(shop, SettingsChanged(capacity, graceSeconds), now) == Shop(shop.rows, capacity, graceSeconds)
  {
  }

  // ---------- how a step changes the line ----------

  datatype LineChange = Same | Joined(row: nat) | Left(place: nat)

  function Changed(line: seq<nat>, change: LineChange): seq<nat>
    requires change.Left? ==> change.place < |line|
  {
    match change
    case Same => line
    case Joined(row) => line + [row]
    case Left(place) => line[..place] + line[place + 1..]
  }

  lemma LineSpec(rows: seq<JobRow>)
    ensures Ordered(LineKeys(rows), Line(rows))
    ensures forall i: nat :: i in Line(rows) <==> i < |rows| && InLine(rows[i].status)
    ensures forall x, y :: 0 <= x < y < |Line(rows)| ==> Line(rows)[x] != Line(rows)[y]
  {
    SelectSpec(LineKeys(rows), LinePick(rows));
  }

  /** Ahead means checked in earlier, a job without a check-in time last; then created earlier, then the smaller row. */
  lemma LineOrder(rows: seq<JobRow>, x: nat, y: nat)
    requires x < y < |Line(rows)|
    ensures var a, b := rows[Line(rows)[x]].job, rows[Line(rows)[y]].job;
      && (a.queuedAt == None ==> b.queuedAt == None)
      && (a.queuedAt.Some? && b.queuedAt.Some? ==> a.queuedAt.value <= b.queuedAt.value)
      && (a.queuedAt == b.queuedAt ==> a.createdAt <= b.createdAt && (a.createdAt == b.createdAt ==> Line(rows)[x] < Line(rows)[y]))
  {
    LineSpec(rows);
    assert Before(LineKeys(rows), Line(rows)[x], Line(rows)[y]);
  }

  /** Any list of exactly the active rows in strict key order is the line. */
  lemma LineIs(rows: seq<JobRow>, line: seq<nat>)
    requires Ordered(LineKeys(rows), line)
    requires forall i: nat :: i in line <==> i < |rows| && InLine(rows[i].status)
    ensures Line(rows) == line
  {
    LineSpec(rows);
    assert forall i :: i in line <==> i in Line(rows);
    OrderedUnique(LineKeys(rows), Line(rows), line);
  }

  /** Check-in clocks: everyone in line queued strictly before `now`. */
  predicate QueuedBefore(rows: seq<JobRow>, now: int) {
    forall i :: 0 <= i < |rows| && InLine(rows[i].status) ==> rows[i].job.queuedAt.Some? && rows[i].job.queuedAt.value < now
  }

  lemma CheckInJoinsAtBack(shop: Shop, row: nat, printerId: string, now: int)
    requires row < |shop.rows| && shop.rows[row].status in {AwaitingArrival, NoShow, Requeued}
    requires QueuedBefore(shop.rows, now)
    ensures Line(CheckIn(shop, row, printerId, now).rows) == Line(shop.rows) + [row]
  {
    var rows, next := shop.rows, CheckIn(shop, row, printerId, now).rows;
    var line := Line(rows);
    LineSpec(rows);
    var keys := LineKeys(next);
    forall x, y | 0 <= x < y < |line + [row]| ensures Before(keys, (line + [row])[x], (line + [row])[y]) {
      assert line[x] in line;
      if y < |line| {
        assert line[y] in line;
        assert Before(LineKeys(rows), line[x], line[y]);
      }
    }
    LineIs(next, line + [row]);
  }

  lemma WithoutSpec(line: seq<nat>, place: nat)
    requires place < |line| && forall x, y :: 0 <= x < y < |line| ==> line[x] != line[y]
    ensures var rest := Changed(line, Left(place));
      && |rest| == |line| - 1
      && (forall x :: 0 <= x < |rest| ==> rest[x] == line[if x < place then x else x + 1])
      && (forall i :: i in rest <==> i in line && i != line[place])
  {
    var rest := Changed(line, Left(place));
    forall i | i in line && i != line[place] ensures i in rest {
      var k :| 0 <= k < |line| && line[k] == i;
      assert rest[if k < place then k else k - 1] == i;
    }
  }

  /** Taking one row out keeps everyone else's order. */
  lemma LeavingKeepsOrder(rows: seq<JobRow>, row: nat, r: JobRow, place: nat)
    requires row < |rows| && place < |Line(rows)| && Line(rows)[place] == row && !InLine(r.status)
    ensures Line(rows[row := r]) == Changed(Line(rows), Left(place))
  {
    var line, next := Line(rows), rows[row := r];
    var rest := Changed(line, Left(place));
    LineSpec(rows);
    WithoutSpec(line, place);
    forall x, y | 0 <= x < y < |rest| ensures Before(LineKeys(next), rest[x], rest[y]) {
      assert rest[x] in rest && rest[y] in rest;
      assert Before(LineKeys(rows), line[if x < place then x else x + 1], line[if y < place then y else y + 1]);
    }
    LineIs(next, rest);
  }

  lemma SameKeysSameLine(rows: seq<JobRow>, next: seq<JobRow>)
    requires |rows| <= |next|
    requires forall i :: 0 <= i < |rows| ==>
               (InLine(next[i].status) <==> InLine(rows[i].status))
               && (InLine(rows[i].status) ==> KeyOf(next[i].job) == KeyOf(rows[i].job))
    requires forall i :: |rows| <= i < |next| ==> !InLine(next[i].status)
    ensures Line(next) == Line(rows)
  {
    var line := Line(rows);
    LineSpec(rows);
    forall x, y | 0 <= x < y < |line| ensures Before(LineKeys(next), line[x], line[y]) {
      assert Before(LineKeys(rows), line[x], line[y]);
      assert line[x] in line && line[y] in line;
    }
    LineIs(next, line);
  }

  lemma PassKeepsLine(shop: Shop, now: int)
    ensures var next := PassTable(shop, now);
      Line(next.rows) == Line(shop.rows)
      && LineJobs(next.rows) == RunPass(LineJobs(shop.rows), shop.capacity, shop.graceSeconds, now)
  {
    var rows, next := shop.rows, PassTable(shop, now).rows;
    var line := Line(rows);
    var after := RunPass(LineJobs(rows), shop.capacity, shop.graceSeconds, now);
    LineSpec(rows);
    forall i | 0 <= i < |rows|
      ensures next[i].status == rows[i].status && KeyOf(next[i].job) == KeyOf(rows[i].job)
    {
    }
    SameKeysSameLine(rows, next);
    forall k | 0 <= k < |line| ensures LineJobs(next)[k] == after[k] {
      var place := PlaceOf(line, line[k]);
      assert line[k] in line;
      assert place.value == k;
    }
  }

  // ---------- the invariant over runs ----------

  /** A row leaves the line, joins at the back, or the line keeps its rows; nothing else happens to it. */
  predicate StepChanges(shop: Shop, next: Shop, change: LineChange) {
    (change.Left? ==> change.place < |Line(shop.rows)|)
    && Line(next.rows) == Changed(Line(shop.rows), change)
    && |shop.rows| <= |next.rows|
  }

  lemma StepLine(shop: Shop, e: LineEvent, now: int) returns (change: LineChange)
    requires e.CheckedIn? ==> QueuedBefore(shop.rows, now)
    ensures StepChanges(shop, Step(shop, e, now), change)
    ensures change.Joined? ==>
              (e.CheckedIn? && change.row == e.row && Step(shop, e, now) != shop
               && Step(shop, e, now) == CheckIn(shop, e.row, e.printerId, now) && !InLine(shop.rows[e.row].status))
  {
    hide Line;
    change := Same;
    var next := Step(shop, e, now);
    LineSpec(shop.rows);
    match e {
      case PassRun => PassKeepsLine(shop, now);
      case Prepared(job) => SameKeysSameLine(shop.rows, next.rows);
      case SettingsChanged(_, _) =>
      case TimerDisarmed(row) => SameKeysSameLine(shop.rows, next.rows);
      case CheckedIn(row, printerId) =>
        if next != shop {
          CheckInJoinsAtBack(shop, row, printerId, now);
          change := Joined(row);
        }
      case _ =>
        if next != shop {
          var row := e.row;
          if InLine(shop.rows[row].status) && !InLine(next.rows[row].status) {
            var place := PlaceOf(Line(shop.rows), row).value;
            assert next.rows == shop.rows[row := next.rows[row]];
            LeavingKeepsOrder(shop.rows, row, next.rows[row], place);
            change := Left(place);
          } else {
            SameKeysSameLine(shop.rows, next.rows);
          }
        }
    }
  }

  /** Outside a pass, a job that stays in line keeps its reveal. */
  lemma StepKeepsReveals(shop: Shop, e: LineEvent, now: int, i: nat)
    requires !e.PassRun? && i < |shop.rows| && InLine(shop.rows[i].status)
    ensures var next := Step(shop, e, now);
      i < |next.rows| && next.rows[i].job.id == shop.rows[i].job.id
      && (InLine(next.rows[i].status) ==> next.rows[i].job.revealedAt == shop.rows[i].job.revealedAt)
  {
  }

  /** The largest capacity the shop has had so far. */
  function Peak(capacity: int, events: seq<TimedEvent>): int {
    if events == [] then QB.Cap(capacity)
    else
      var last := |events| - 1;
      var peak := Peak(capacity, events[..last]);
      if events[last].event.SettingsChanged? then Max(peak, QB.Cap(events[last].event.capacity)) else peak
  }

  function Run(shop: Shop, events: seq<TimedEvent>): Shop {
    if events == [] then shop
    else
      var last := |events| - 1;
      Step(Run(shop, events[..last]), events[last].event, events[last].now)
  }

  /** Check-ins commit at strictly increasing times. */
  predicate CheckInsIncrease(events: seq<TimedEvent>) {
    forall j, k :: 0 <= j < k < |events| && events[j].event.CheckedIn? && events[k].event.CheckedIn? ==>
      events[j].now < events[k].now
  }

  ghost predicate QueuedByCheckIn(rows: seq<JobRow>, events: seq<TimedEvent>) {
    forall i :: 0 <= i < |rows| && InLine(rows[i].status) ==>
      rows[i].job.queuedAt.Some?
      && exists k :: 0 <= k < |events| && events[k].event.CheckedIn? && events[k].now == rows[i].job.queuedAt.value
  }

  predicate LineOk(shop: Shop, peak: int) {
    QB.RevealedFirst(BandInputs(LineJobs(shop.rows)))
    && Revealed(shop.rows) <= peak && QB.Cap(shop.capacity) <= peak
  }

  lemma {:induction false} CountWithout(line: seq<QB.BandInput>, place: nat)
    requires place < |line|
    ensures QB.RevealedCount(line[..place] + line[place + 1..]) <= QB.RevealedCount(line)
  {
    var n := |line| - 1;
    var rest := line[..place] + line[place + 1..];
    if place < n {
      assert rest[..|rest| - 1] == line[..n][..place] + line[..n][place + 1..];
      CountWithout(line[..n], place);
    } else {
      assert rest == line[..n];
    }
  }

  lemma JoinKeepsLineOk(shop: Shop, next: Shop, row: nat, peak: int)
    requires LineOk(shop, peak) && next.capacity == shop.capacity && |shop.rows| == |next.rows| && row < |next.rows|
    requires Line(next.rows) == Line(shop.rows) + [row] && next.rows == shop.rows[row := next.rows[row]]
    requires row !in Line(shop.rows) && next.rows[row].job.revealedAt.None?
    ensures LineOk(next, peak)
  {
    var before, after := BandInputs(LineJobs(shop.rows)), BandInputs(LineJobs(next.rows));
    forall k | 0 <= k < |before| ensures after[k] == before[k] {
      assert Line(shop.rows)[k] in Line(shop.rows);
    }
    assert after[..|before|] == before;
  }

  lemma LeaveKeepsLineOk(shop: Shop, next: Shop, place: nat, peak: int)
    requires LineOk(shop, peak) && next.capacity == shop.capacity && |shop.rows| == |next.rows| && place < |Line(shop.rows)|
    requires Line(next.rows) == Changed(Line(shop.rows), Left(place))
    requires forall i :: 0 <= i < |shop.rows| && i != Line(shop.rows)[place] ==> next.rows[i] == shop.rows[i]
    ensures LineOk(next, peak)
  {
    var line, rest := Line(shop.rows), Line(next.rows);
    var before, after := BandInputs(LineJobs(shop.rows)), BandInputs(LineJobs(next.rows));
    LineSpec(shop.rows);
    forall k | 0 <= k < |rest| ensures after[k] == before[if k < place then k else k + 1] {
      assert rest[k] == line[if k < place then k else k + 1];
    }
    assert after == before[..place] + before[place + 1..];
    CountWithout(before, place);
  }

  lemma PassKeepsLineOk(shop: Shop, now: int, peak: int)
    requires LineOk(shop, peak)
    ensures LineOk(PassTable(shop, now), peak)
  {
    var jobs := LineJobs(shop.rows);
    var after := RunPass(jobs, shop.capacity, shop.graceSeconds, now);
    PassKeepsLine(shop, now);
    RevealedAfterPass(jobs, shop.capacity, shop.graceSeconds, now);
    PassRevealsTheBand(jobs, shop.capacity, shop.graceSeconds, now);
    forall i, j | 0 <= i < j < |after| && BandInputs(after)[j].revealed ensures BandInputs(after)[i].revealed {
      QB.BandsArePositional(BandInputs(jobs), shop.capacity, i);
      QB.BandsArePositional(BandInputs(jobs), shop.capacity, j);
    }
  }

  lemma SameLineOk(shop: Shop, next: Shop, peak: int)
    requires LineOk(shop, peak) && QB.Cap(next.capacity) <= peak && |shop.rows| <= |next.rows|
    requires Line(next.rows) == Line(shop.rows)
    requires forall i :: 0 <= i < |shop.rows| && InLine(shop.rows[i].status) ==>
               next.rows[i].job.revealedAt == shop.rows[i].job.revealedAt && next.rows[i].job.id == shop.rows[i].job.id
    ensures LineOk(next, peak)
  {
    LineSpec(shop.rows);
    forall k | 0 <= k < |Line(shop.rows)|
      ensures BandInputs(LineJobs(next.rows))[k] == BandInputs(LineJobs(shop.rows))[k]
    {
      assert Line(shop.rows)[k] in Line(shop.rows);
    }
    assert BandInputs(LineJobs(next.rows)) == BandInputs(LineJobs(shop.rows));
  }

  lemma StepKeepsLineOk(shop: Shop, e: LineEvent, now: int, peak: int)
    requires LineOk(shop, peak) && (e.CheckedIn? ==> QueuedBefore(shop.rows, now))
    ensures LineOk(Step(shop, e, now), if e.SettingsChanged? then Max(peak, QB.Cap(e.capacity)) else peak)
  {
    hide LineOk;
    var next := Step(shop, e, now);
    var change := StepLine(shop, e, now);
    LineSpec(shop.rows);
    if e.PassRun? {
      PassKeepsLineOk(shop, now, peak);
    } else if e.SettingsChanged? {
      RaisePeak(shop, peak, Max(peak, QB.Cap(e.capacity)));
      SameLineOk(shop, next, Max(peak, QB.Cap(e.capacity)));
    } else {
      CapWithinPeak(shop, peak);
      match change {
        case Joined(row) => JoinKeepsLineOk(shop, next, row, peak);
        case Left(place) =>
          LeftRow(shop, e, now, place);
          LeaveKeepsLineOk(shop, next, place, peak);
        case Same =>
          LineSpec(next.rows);
          forall i | 0 <= i < |shop.rows| && InLine(shop.rows[i].status)
            ensures next.rows[i].job.revealedAt == shop.rows[i].job.revealedAt && next.rows[i].job.id == shop.rows[i].job.id
          {
            StepKeepsReveals(shop, e, now, i);
            assert i in Line(next.rows);
          }
          SameLineOk(shop, next, peak);
      }
    }
  }

  lemma CapWithinPeak(shop: Shop, peak: int)
    requires LineOk(shop, peak)
    ensures QB.Cap(shop.capacity) <= peak
  {
  }

  lemma RaisePeak(shop: Shop, peak: int, higher: int)
    requires LineOk(shop, peak) && peak <= higher
    ensures LineOk(shop, higher)
  {
  }

  /** The row that left is the row the event named. */
  lemma LeftRow(shop: Shop, e: LineEvent, now: int, place: nat)
    requires !e.PassRun? && !e.SettingsChanged? && place < |Line(shop.rows)|
    requires Line(Step(shop, e, now).rows) == Changed(Line(shop.rows), Left(place))
    ensures var next := Step(shop, e, now);
      |next.rows| == |shop.rows| && next.capacity == shop.capacity
      && forall i :: 0 <= i < |shop.rows| && i != Line(shop.rows)[place] ==> next.rows[i] == shop.rows[i]
  {
    hide Line;
    var line, next := Line(shop.rows), Step(shop, e, now);
    var gone := line[place];
    var rest := line[..place] + line[place + 1..];
    LineSpec(shop.rows);
    LineSpec(next.rows);
    forall x | 0 <= x < |rest| ensures rest[x] != gone {
      assert rest[x] == line[if x < place then x else x + 1];
    }
    assert gone in line && gone !in Line(next.rows);
    assert InLine(shop.rows[gone].status) && !InLine(next.rows[gone].status);
  }

  /** In every reachable state the revealed jobs stand in front and never outnumber the largest capacity so far. */
  lemma {:induction false} RunsKeepLineOk(capacity: int, graceSeconds: int, events: seq<TimedEvent>)
    requires CheckInsIncrease(events)
    ensures var shop := Run(Shop([], capacity, graceSeconds), events);
      LineOk(shop, Peak(capacity, events)) && QueuedByCheckIn(shop.rows, events)
  {
    hide Step, LineOk, QueuedByCheckIn;
    var start := Shop([], capacity, graceSeconds);
    if events == [] {
      EmptyLine(capacity, graceSeconds);
    } else {
      var init, last := events[..|events| - 1], events[|events| - 1];
      assert forall j, k :: 0 <= j < k < |init| ==> init[j] == events[j] && init[k] == events[k];
      RunsKeepLineOk(capacity, graceSeconds, init);
      var shop := Run(start, init);
      CheckInTimes(shop, events);
      StepKeepsLineOk(shop, last.event, last.now, Peak(capacity, init));
    }
  }

  lemma EmptyLine(capacity: int, graceSeconds: int)
    ensures LineOk(Shop([], capacity, graceSeconds), QB.Cap(capacity)) && QueuedByCheckIn([], [])
  {
    LineSpec([]);
  }

  lemma CheckInTimes(shop: Shop, events: seq<TimedEvent>)
    requires events != [] && CheckInsIncrease(events) && QueuedByCheckIn(shop.rows, events[..|events| - 1])
    ensures var last := events[|events| - 1];
      && (last.event.CheckedIn? ==> QueuedBefore(shop.rows, last.now))
      && QueuedByCheckIn(Step(shop, last.event, last.now).rows, events)
  {
    var n := |events| - 1;
    var e, now := events[n].event, events[n].now;
    var next := Step(shop, e, now);
    forall i | 0 <= i < |shop.rows| && InLine(shop.rows[i].status)
      ensures e.CheckedIn? ==> shop.rows[i].job.queuedAt.value < now
      ensures exists k :: 0 <= k < |events| && events[k].event.CheckedIn? && events[k].now == shop.rows[i].job.queuedAt.value
    {
      var k :| 0 <= k < n && events[..n][k].event.CheckedIn? && events[..n][k].now == shop.rows[i].job.queuedAt.value;
      assert events[k] == events[..n][k];
    }
    forall i | 0 <= i < |next.rows| && InLine(next.rows[i].status)
      ensures next.rows[i].job.queuedAt.Some?
      ensures exists k :: 0 <= k < |events| && events[k].event.CheckedIn? && events[k].now == next.rows[i].job.queuedAt.value
    {
      StepQueuedAt(shop, e, now, i);
      if next.rows[i].job.queuedAt == Some(now) && e.CheckedIn? { assert events[n].event.CheckedIn?; }
    }
  }

  lemma StepQueuedAt(shop: Shop, e: LineEvent, now: int, i: nat)
    requires i < |Step(shop, e, now).rows| && InLine(Step(shop, e, now).rows[i].status)
    ensures i < |shop.rows|
    ensures (InLine(shop.rows[i].status) && Step(shop, e, now).rows[i].job.queuedAt == shop.rows[i].job.queuedAt)
            || (e.CheckedIn? && Step(shop, e, now).rows[i].job.queuedAt == Some(now))
  {
    hide Line;
    LineSpec(shop.rows);
  }

  /** One step never hides a revealed job that stays in line. */
  lemma NoUnreveal(shop: Shop, e: LineEvent, now: int, i: nat)
    requires i < |shop.rows| && InLine(shop.rows[i].status) && shop.rows[i].job.revealedAt.Some?
    requires InLine(Step(shop, e, now).rows[i].status)
    ensures Step(shop, e, now).rows[i].job.revealedAt == shop.rows[i].job.revealedAt
  {
    if e.PassRun? {
      LineSpec(shop.rows);
      var place := PlaceOf(Line(shop.rows), i).value;
      PassRevealsTheBand(LineJobs(shop.rows), shop.capacity, shop.graceSeconds, now);
      assert LineJobs(shop.rows)[place] == shop.rows[i].job;
    } else {
      StepKeepsReveals(shop, e, now, i);
    }
  }

  /** One step never swaps two jobs that both stay in line. */
  lemma NoOvertaking(shop: Shop, e: LineEvent, now: int, x: nat, y: nat) returns (u: nat, v: nat)
    requires e.CheckedIn? ==> QueuedBefore(shop.rows, now)
    requires x < y < |Line(shop.rows)|
    requires InLine(Step(shop, e, now).rows[Line(shop.rows)[x]].status) && InLine(Step(shop, e, now).rows[Line(shop.rows)[y]].status)
    ensures var line, next := Line(shop.rows), Line(Step(shop, e, now).rows);
      u < v < |next| && next[u] == line[x] && next[v] == line[y]
  {
    hide Step, Line, InLine, QueuedBefore, CheckIn, Changed;
    var line, next := Line(shop.rows), Step(shop, e, now);
    var change := StepLine(shop, e, now);
    StillInLine(shop.rows, next.rows, x);
    StillInLine(shop.rows, next.rows, y);
    LineSpec(shop.rows);
    u, v := OrderKept(line, change, x, y);
  }

  /** A change of the line keeps the order of those who stay. */
  lemma OrderKept(line: seq<nat>, change: LineChange, x: nat, y: nat) returns (u: nat, v: nat)
    requires change.Left? ==> change.place < |line|
    requires forall i, j :: 0 <= i < j < |line| ==> line[i] != line[j]
    requires x < y < |line| && line[x] in Changed(line, change) && line[y] in Changed(line, change)
    ensures var next := Changed(line, change); u < v < |next| && next[u] == line[x] && next[v] == line[y]
  {
    u, v := x, y;
    if change.Left? {
      WithoutSpec(line, change.place);
      u, v := if x < change.place then x else x - 1, if y < change.place then y else y - 1;
    }
  }

  lemma StillInLine(rows: seq<JobRow>, next: seq<JobRow>, x: nat)
    requires x < |Line(rows)| && Line(rows)[x] < |next| && InLine(next[Line(rows)[x]].status)
    ensures Line(rows)[x] in Line(next)
  {
    hide Line;
    LineSpec(next);
  }

  /** In every reachable state bands follow from the place alone, given how many are revealed. */
  lemma ReachableBands(capacity: int, graceSeconds: int, events: seq<TimedEvent>, place: nat)
    requires CheckInsIncrease(events)
    requires place < |Line(Run(Shop([], capacity, graceSeconds), events).rows)|
    ensures var shop := Run(Shop([], capacity, graceSeconds), events);
      var r, cap := Revealed(shop.rows), QB.Cap(shop.capacity);
      Bands(LineJobs(shop.rows), shop.capacity)[place]
      == if place < Max(r, cap) then QB.Band.Revealed else if place < Max(r, cap) + cap then QB.Arriving else QB.Waiting
  {
    var shop := Run(Shop([], capacity, graceSeconds), events);
    RunsKeepLineOk(capacity, graceSeconds, events);
    QB.BandsArePositional(BandInputs(LineJobs(shop.rows)), shop.capacity, place);
  }

  // ---------- the promised grace ----------

  /** What a pass may do to a table row: nothing, reveal it with the grace from now, or note its arrival notice. */
  predicate Passed(before: JobRow, after: JobRow, graceSeconds: int, now: int) {
    after == before
    || (InLine(before.status) && before.job.revealedAt.None?
        && (after == before.(job := before.job.(revealedAt := Some(now), revealDeadlineAt := Some(now + 1000 * graceSeconds), updatedAt := now))
            || (before.job.arrivingNotifiedAt.None? && after == before.(job := before.job.(arrivingNotifiedAt := Some(now), updatedAt := now)))))
  }

  lemma PassTableWrites(shop: Shop, now: int, i: nat)
    requires i < |shop.rows|
    ensures Passed(shop.rows[i], PassTable(shop, now).rows[i], shop.graceSeconds, now)
  {
    hide Line, RunPass, Bands;
    LineSpec(shop.rows);
    var place := PlaceOf(Line(shop.rows), i);
    if place.Some? {
      assert Line(shop.rows)[place.value] in Line(shop.rows);
      PassWrites(LineJobs(shop.rows), shop.capacity, shop.graceSeconds, now, place.value);
      assert LineJobs(shop.rows)[place.value] == shop.rows[i].job;
    }
  }

  /** A job in line that carries a deadline was revealed between lo and hi seconds before it. */
  predicate GraceOk(rows: seq<JobRow>, lo: int, hi: int) {
    forall i :: 0 <= i < |rows| && InLine(rows[i].status) && rows[i].job.revealDeadlineAt.Some? ==>
      var job := rows[i].job;
      job.revealedAt.Some? && job.revealedAt.value + 1000 * lo <= job.revealDeadlineAt.value <= job.revealedAt.value + 1000 * hi
  }

  predicate GraceWithin(graceSeconds: int, events: seq<TimedEvent>, lo: int, hi: int) {
    lo <= graceSeconds <= hi
    && forall k :: 0 <= k < |events| && events[k].event.SettingsChanged? ==> lo <= events[k].event.graceSeconds <= hi
  }

  lemma StepKeepsGrace(shop: Shop, e: LineEvent, now: int, lo: int, hi: int)
    requires GraceOk(shop.rows, lo, hi) && lo <= shop.graceSeconds <= hi
    requires e.SettingsChanged? ==> lo <= e.graceSeconds <= hi
    ensures GraceOk(Step(shop, e, now).rows, lo, hi) && lo <= Step(shop, e, now).graceSeconds <= hi
  {
    hide Line, PassTable, RunPass, Bands;
    if e.PassRun? {
      forall i | 0 <= i < |shop.rows| { PassTableWrites(shop, now, i); }
    }
  }

  lemma {:induction false} RunsKeepGrace(capacity: int, graceSeconds: int, events: seq<TimedEvent>, lo: int, hi: int)
    requires GraceWithin(graceSeconds, events, lo, hi)
    ensures var shop := Run(Shop([], capacity, graceSeconds), events);
      GraceOk(shop.rows, lo, hi) && lo <= shop.graceSeconds <= hi
  {
    hide Step, GraceOk;
    if events == [] {
      NobodyWaits(lo, hi);
    } else {
      var front, last := events[..|events| - 1], events[|events| - 1];
      assert forall k :: 0 <= k < |front| ==> front[k] == events[k];
      RunsKeepGrace(capacity, graceSeconds, front, lo, hi);
      StepKeepsGrace(Run(Shop([], capacity, graceSeconds), front), last.event, last.now, lo, hi);
    }
  }

  lemma NobodyWaits(lo: int, hi: int)
    ensures GraceOk([], lo, hi)
  {
  }

  /**
   * Over every run whose grace settings lie between lo and hi seconds, the timer never takes a job out of line before
   * lo seconds after its reveal, and, unless disarmed, does from hi seconds on; with one constant grace, exactly then.
   */
  lemma GraceIsKept(capacity: int, graceSeconds: int, events: seq<TimedEvent>, lo: int, hi: int, row: nat, now: int)
    requires GraceWithin(graceSeconds, events, lo, hi)
    requires var rows := Run(Shop([], capacity, graceSeconds), events).rows; row < |rows| && InLine(rows[row].status)
    ensures var shop := Run(Shop([], capacity, graceSeconds), events);
      var job, gone := shop.rows[row].job, !InLine(Step(shop, GraceExpired(row), now).rows[row].status);
      && (gone ==> job.revealedAt.Some? && job.revealDeadlineAt.Some? && job.revealedAt.value + 1000 * lo <= now)
      && (job.revealDeadlineAt.Some? && job.revealedAt.Some? && job.revealedAt.value + 1000 * hi <= now ==> gone)
  {
    RunsKeepGrace(capacity, graceSeconds, events, lo, hi);
  }

  // ---------- the table in place ----------

  /** What the handler checks before the commit: payment, position and its freshness, the scheduled time, a printer. */
  datatype Checks = Checks(paymentReady: bool, atShop: bool, timeOpen: bool, recommended: Option<string>)

  datatype CheckInAnswer = AlreadyQueued | CheckInRefused | JoinedLine

  predicate Admits(c: Checks) { c.paymentReady && c.atShop && c.timeOpen && c.recommended.Some? }

  class ShopTable {
    var rows: seq<JobRow>
    var capacity: int
    var graceSeconds: int

    function State(): Shop
      reads this
    {
      Shop(rows, capacity, graceSeconds)
    }

    constructor (capacity: int, graceSeconds: int)
      ensures State() == Shop([], capacity, graceSeconds)
    {
      rows, this.capacity, this.graceSeconds := [], capacity, graceSeconds;
    }

    /**
     * `checkInJob`: a job already queued is answered as it stands; payment, place, time and printer must
     * admit the student, who then joins at the back.
     */
    method CheckInJob(row: nat, checks: Checks, now: int) returns (answer: CheckInAnswer)
      requires row < |rows|
      modifies this`rows
      ensures answer.AlreadyQueued? <==> old(rows[row].status).Queued?
      ensures answer.JoinedLine? <==> old(rows[row].status) in {AwaitingArrival, NoShow, Requeued} && Admits(checks)
      ensures State() == (if answer.JoinedLine? then Step(old(State()), CheckedIn(row, checks.recommended.value), now) else old(State()))
      ensures answer.JoinedLine? && old(QueuedBefore(rows, now)) ==> Line(rows) == old(Line(rows)) + [row]
    {
      var r := rows[row];
      if r.status.Queued? { return AlreadyQueued; }
      if r.status !in {AwaitingArrival, NoShow, Requeued} || !checks.paymentReady { return CheckInRefused; }
      if !checks.atShop || !checks.timeOpen || checks.recommended.None? { return CheckInRefused; }
      var printerId := checks.recommended.value;
      var job := r.job.(queuedAt := Some(now), revealedAt := None, revealDeadlineAt := None, arrivingNotifiedAt := None);
      job := job.(printerId := Some(printerId), checkInCount := job.checkInCount + 1, updatedAt := now);
      ghost var before := State();
      rows := rows[row := JobRow(Transition(r.status, Arrived).value, job)];
      if QueuedBefore(before.rows, now) { CheckInJoinsAtBack(before, row, printerId, now); }
      answer := JoinedLine;
    }

    /** Staff button and grace timer; the timer's overdue guard is part of the same conditional update. */
    method MarkAbsentRow(row: nat, overdueOnly: bool, now: int) returns (marked: bool)
      requires row < |rows|
      modifies this`rows
      ensures State() == MarkAbsent(old(State()), row, overdueOnly, now)
      ensures marked ==> rows[row].status.AwaitingArrival? && row !in Line(rows)
    {
      var r := rows[row];
      marked := InLine(r.status);
      if overdueOnly {
        marked := marked && r.job.revealedAt.Some? && r.job.revealDeadlineAt.Some? && r.job.revealDeadlineAt.value <= now;
      }
      if marked {
        var job := r.job.(queuedAt := None, revealedAt := None, revealDeadlineAt := None, arrivingNotifiedAt := None, updatedAt := now);
        rows := rows[row := JobRow(Transition(r.status, QueueSkipped).value, job)];
        LineSpec(rows);
      }
    }

    /** The locked pass; the counter is as full as the line allows afterwards. */
    method RunRevealPass(now: int)
      modifies this`rows
      ensures State() == PassTable(old(State()), now)
      ensures Line(rows) == old(Line(rows))
      ensures !NeedsReconcile(LineJobs(rows), capacity)
      ensures old(Revealed(rows)) <= Revealed(rows) <= Max(old(Revealed(rows)), QB.Cap(capacity))
      ensures |rows| == |old(rows)| && forall i :: 0 <= i < |rows| ==> Passed(old(rows)[i], rows[i], graceSeconds, now)
    {
      ghost var jobs := LineJobs(rows);
      PassKeepsLine(State(), now);
      RevealedAfterPass(jobs, capacity, graceSeconds, now);
      PassIsIdempotent(jobs, capacity, graceSeconds, now, graceSeconds, now);
      forall i | 0 <= i < |rows| ensures Passed(rows[i], PassTable(State(), now).rows[i], graceSeconds, now) {
        PassTableWrites(State(), now, i);
      }
      rows := PassTable(State(), now).rows;
    }
  }
}
