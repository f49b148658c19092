/** One uploaded file, the orders that reference it, its objects in the store and its deletion clock. */
module FileRetention {
  import opened Options
  import opened StateMachine

  datatype FileStatus = Uploaded | Converting | Ready | Failed | Deleted

  /** An object's name in the store; `Tombstone` is the placeholder a deleted file keeps. */
  datatype Key = Blob(name: nat) | Tombstone

  /** `sources` is the JSON list of an upload of several documents. */
  datatype File = File(
    status: FileStatus, originalKey: Key, sources: Option<seq<Key>>, convertedKey: Option<Key>, previewKey: Option<Key>,
    deleteAfter: Option<int>, deletionScheduledAt: Option<int>, deletionAttempts: nat, contentDeletedAt: Option<int>, overdue: bool)

  datatype Job = Job(status: JobStatus, printConfirmedAt: Option<int>, updatedAt: int)

  /** `inFlight` counts conversion runs between their two writes. */
  datatype State = State(file: File, jobs: seq<Job>, objects: set<Key>, nextName: nat, inFlight: nat)

  const VERIFIED_PRINT_DELETE_DELAY_MS := 600_000
  const TERMINAL_JOB_DELETE_DELAY_MS := 600_000

  predicate HasActiveJob(jobs: seq<Job>) { exists i :: 0 <= i < |jobs| && NeedsFile(jobs[i].status) }

  predicate IsPrintedFileJob(job: Job) { job.printConfirmedAt.Some? || IsPrinted(job.status) }

  predicate AlreadyPrinted(jobs: seq<Job>) { exists i :: 0 <= i < |jobs| && IsPrintedFileJob(jobs[i]) }

  // ---------- the steps ----------

  /** One object per uploaded document; the list is stored only when there are several. */
  function Upload(names: seq<nat>, deadline: int): State
    requires names != []
  {
    var keys := seq(|names|, i requires 0 <= i < |names| => Blob(names[i]));
    State(File(Uploaded, keys[0], if |keys| > 1 then Some(keys) else None, None, None, Some(deadline), None, 0, None, false), [],
          (set k | k in keys), Above(names), 0)
  }

  /** A name no listed object uses. */
  function Above(names: seq<nat>): (n: nat)
    ensures forall i :: 0 <= i < |names| ==> names[i] < n
  {
    if names == [] then 0
    else
      var rest := Above(names[..|names| - 1]);
      if names[|names| - 1] < rest then rest else names[|names| - 1] + 1
  }

  /** The first write of a conversion run; a run that finds the file deleted does nothing. */
  function BeginConversion(s: State): State {
    if s.file.status.Deleted? then s else s.(file := s.file.(status := Converting), inFlight := s.inFlight + 1)
  }

  /** The last write, unconditional: the new object first, then the row. */
  function FinishConversion(s: State): State {
    if s.inFlight == 0 then s
    else
      s.(file := s.file.(status := Ready, convertedKey := Some(Blob(s.nextName)), previewKey := Some(Blob(s.nextName))),
         objects := s.objects + {Blob(s.nextName)}, nextName := s.nextName + 1, inFlight := s.inFlight - 1)
  }

  /** A failed run; when it is the row update that fails, the new object stays in the store unnamed. */
  function FailConversion(s: State, orphan: bool): State {
    if s.inFlight == 0 then s
    else
      s.(file := s.file.(status := Failed), inFlight := s.inFlight - 1,
         objects := s.objects + (if orphan then {Blob(s.nextName)} else {}), nextName := s.nextName + if orphan then 1 else 0)
  }

  predicate MayBackNewJob(s: State) {
    s.file.status.Ready? && !HasActiveJob(s.jobs) && !AlreadyPrinted(s.jobs) && s.file.deletionScheduledAt.None?
  }

  function CreateJob(s: State, now: int): State {
    if MayBackNewJob(s) then s.(jobs := s.jobs + [Job(PendingPayment, None, now)]) else s
  }

  /** Any transition of the lifecycle table; a print confirmation stamps the job. */
  function MoveJob(s: State, j: nat, event: JobEvent, now: int): State {
    if j < |s.jobs| && Transition(s.jobs[j].status, event).Some? then
      var job := s.jobs[j];
      s.(jobs := s.jobs[j := Job(Transition(job.status, event).value, if ConfirmsPaper(event) then Some(now) else job.printConfirmedAt, now)])
    else s
  }

  /** Start the clock, but only once no active order references the file, and only if that is earlier. */
  function ScheduleEarlierDeletion(s: State, deadline: int, now: int): State {
    if HasActiveJob(s.jobs) || s.file.status.Deleted? || (s.file.deleteAfter.Some? && s.file.deleteAfter.value <= deadline) then s
    else s.(file := s.file.(deleteAfter := Some(deadline), deletionScheduledAt := Some(now), overdue := false))
  }

  predicate Due(f: File, now: int) { !f.status.Deleted? && f.deleteAfter.Some? && f.deleteAfter.value <= now }

  function Present(k: Option<Key>): seq<Key> { if k.Some? then [k.value] else [] }

  function Distinct(keys: seq<Key>): seq<Key> {
    if keys == [] then []
    else
      var front := Distinct(keys[..|keys| - 1]);
      if keys[|keys| - 1] in front then front else front + [keys[|keys| - 1]]
  }

  function KeysForDeletion(f: File): seq<Key> {
    Distinct((if f.sources.Some? then f.sources.value else [f.originalKey]) + Present(f.convertedKey) + Present(f.previewKey))
  }

  function Taken(keys: seq<Key>, n: nat): seq<Key> { if n <= |keys| then keys[..n] else keys }

  /** The record of a failed or deferred attempt; its own write may fail too, or the process die before it. */
  function Noted(f: File, recorded: bool): File {
    if recorded then f.(deletionAttempts := f.deletionAttempts + 1, overdue := true) else f
  }

  /**
   * One attempt; `reached` of the keys are deleted. It fails when the object store or the row update does,
   * which may be after the last key.
   */
  function DeleteDueFile(s: State, reached: nat, fails: bool, recorded: bool, now: int): State {
    var f := s.file;
    var keys := KeysForDeletion(f);
    if HasActiveJob(s.jobs) then s.(file := Noted(f, recorded))
    else if fails then s.(file := Noted(f, recorded), objects := s.objects - (set k | k in Taken(keys, reached)))
    else
      s.(file := f.(status := Deleted, convertedKey := None, previewKey := None, originalKey := Tombstone, sources := None,
                    contentDeletedAt := Some(now), deletionAttempts := f.deletionAttempts + 1, overdue := false),
         objects := s.objects - (set k | k in keys))
  }

  function Cleanup(s: State, reached: nat, fails: bool, recorded: bool, now: int): State {
    if Due(s.file, now) then DeleteDueFile(s, reached, fails, recorded, now) else s
  }

  /** The earliest of some instants. */
  function Earliest(times: seq<int>): (t: int)
    requires times != []
    ensures t in times && forall i :: 0 <= i < |times| ==> t <= times[i]
  {
    if |times| == 1 then times[0]
    else
      var t := Earliest(times[..|times| - 1]);
      if times[|times| - 1] < t then times[|times| - 1] else t
  }

  function ConfirmedTimes(jobs: seq<Job>): seq<int> {
    if jobs == [] then []
    else ConfirmedTimes(jobs[..|jobs| - 1]) + TimesOf(jobs[|jobs| - 1].printConfirmedAt)
  }

  function TerminalTimes(jobs: seq<Job>): seq<int> {
    if jobs == [] then []
    else
      var last := jobs[|jobs| - 1];
      TerminalTimes(jobs[..|jobs| - 1]) + if last.status.Cancelled? || last.status.Expired? then [last.updatedAt] else []
  }

  function TimesOf(t: Option<int>): seq<int> { if t.Some? then [t.value] else [] }

  /** The minute reconciler: measured from the first confirmed print, or else the first cancelled or expired order. */
  function ReconcileSchedule(s: State): State {
    if s.file.status.Deleted? then s
    else if ConfirmedTimes(s.jobs) != [] then
      var at := Earliest(ConfirmedTimes(s.jobs));
      ScheduleEarlierDeletion(s, at + VERIFIED_PRINT_DELETE_DELAY_MS, at)
    else if TerminalTimes(s.jobs) != [] then
      var at := Earliest(TerminalTimes(s.jobs));
      ScheduleEarlierDeletion(s, at + TERMINAL_JOB_DELETE_DELAY_MS, at)
    else s
  }

  datatype Event =
    | ConversionBegins
    | ConversionSucceeds
    | ConversionFails(orphan: bool)
    | OrderCreated
    | JobMoved(job: nat, event: JobEvent)
    | TerminalClock
    | VerifiedPrintClock
    | CleanupRan(reached: nat, fails: bool, recorded: bool)
    | ReconcilerRan

  function Step(s: State, e: Event, now: int): State {
    match e
    case ConversionBegins => BeginConversion(s)
    case ConversionSucceeds => FinishConversion(s)
    case ConversionFails(orphan) => FailConversion(s, orphan)
    case OrderCreated => CreateJob(s, now)
    case JobMoved(j, event) => MoveJob(s, j, event, now)
    case TerminalClock => ScheduleEarlierDeletion(s, now + TERMINAL_JOB_DELETE_DELAY_MS, now)
    case VerifiedPrintClock => ScheduleEarlierDeletion(s, now + VERIFIED_PRINT_DELETE_DELAY_MS, now)
    case CleanupRan(reached, fails, recorded) => Cleanup(s, reached, fails, recorded, now)
    case ReconcilerRan => ReconcileSchedule(s)
  }

  datatype Timed = Timed(event: Event, now: int)

  function Run(start: State, events: seq<Timed>): State {
    if events == [] then start
    else Step(Run(start, events[..|events| - 1]), events[|events| - 1].event, events[|events| - 1].now)
  }

  // ---------- the invariant ----------

  /** An order that still needs the file finds its converted document named in the row, and no deletion clock running. */
  predicate ActiveOk(s: State) {
    HasActiveJob(s.jobs) ==> !s.file.status.Deleted? && s.file.convertedKey.Some? && s.file.deletionScheduledAt.None?
  }

  predicate RowOk(s: State) {
    (s.file.status.Ready? ==> s.file.convertedKey.Some?)
    && (s.file.status.Deleted? ==> s.file.convertedKey.None?)
    && s.file.deleteAfter.Some?
    && (s.file.convertedKey.Some? ==> s.file.convertedKey.value.Blob? && s.file.convertedKey.value.name < s.nextName)
  }

  predicate Inv(s: State) { ActiveOk(s) && RowOk(s) }

  lemma MovedJobs(jobs: seq<Job>, j: nat, job: Job)
    requires j < |jobs| && (NeedsFile(job.status) ==> NeedsFile(jobs[j].status))
    ensures HasActiveJob(jobs[j := job]) ==> HasActiveJob(jobs)
  {
    if HasActiveJob(jobs[j := job]) {
      var i :| 0 <= i < |jobs| && NeedsFile(jobs[j := job][i].status);
      assert NeedsFile(jobs[i].status);
    }
  }

  /** Leaving the statuses that need the file is one-way. */
  lemma TransitionNeedsFile(from: JobStatus, event: JobEvent)
    requires Transition(from, event).Some?
    ensures NeedsFile(Transition(from, event).value) ==> NeedsFile(from)
  {
  }

  lemma StepKeepsInv(s: State, e: Event, now: int)
    requires Inv(s)
    ensures Inv(Step(s, e, now))
  {
    hide NeedsFile, KeysForDeletion, Transition, HasActiveJob, ConfirmedTimes, TerminalTimes;
    if e.JobMoved? && Step(s, e, now) != s {
      TransitionNeedsFile(s.jobs[e.job].status, e.event);
      MovedJobs(s.jobs, e.job, Step(s, e, now).jobs[e.job]);
    }
  }

  lemma UploadIsOk(names: seq<nat>, deadline: int)
    requires names != []
    ensures Inv(Upload(names, deadline))
  {
  }

  lemma {:induction false} ReachableIsOk(names: seq<nat>, deadline: int, events: seq<Timed>)
    requires names != []
    ensures Inv(Run(Upload(names, deadline), events))
  {
    if events == [] {
      UploadIsOk(names, deadline);
    } else {
      ReachableIsOk(names, deadline, events[..|events| - 1]);
      StepKeepsInv(Run(Upload(names, deadline), events[..|events| - 1]), events[|events| - 1].event, events[|events| - 1].now);
    }
  }

  // ---------- where the document is ----------

  predicate Stored(s: State) { s.file.convertedKey.Some? && s.file.convertedKey.value in s.objects }

  /** The deletion attempt got as far as the converted document. */
  predicate Reaches(f: File, reached: nat) {
    f.convertedKey.Some? && f.convertedKey.value in Taken(KeysForDeletion(f), reached)
  }

  predicate FailsDeleting(s: State, e: Event, now: int) {
    e.CleanupRan? && e.fails && Due(s.file, now) && !HasActiveJob(s.jobs)
  }

  /** Since the last successful conversion some failed deletion attempt has reached the document's key. */
  predicate Lost(start: State, events: seq<Timed>) {
    events != []
    && var s, last := Run(start, events[..|events| - 1]), events[|events| - 1];
       !(last.event.ConversionSucceeds? && s.inFlight > 0)
       && ((FailsDeleting(s, last.event, last.now) && Reaches(s.file, last.event.reached)) || Lost(start, events[..|events| - 1]))
  }

  lemma StepMoves(s: State, e: Event, now: int)
    requires RowOk(s) && Step(s, e, now).file.convertedKey.Some?
    ensures var t := Step(s, e, now);
      if e.ConversionSucceeds? && s.inFlight > 0 then Stored(t)
      else s.file.convertedKey == t.file.convertedKey
           && (Stored(t) <==> Stored(s) && !(FailsDeleting(s, e, now) && Reaches(s.file, e.reached)))
  {
    hide KeysForDeletion, HasActiveJob, ConfirmedTimes, TerminalTimes, NeedsFile, Transition;
  }

  /** On every reachable state a named document is missing from the store exactly when it was lost. */
  lemma {:induction false} MissingIffLost(names: seq<nat>, deadline: int, events: seq<Timed>)
    requires names != [] && Run(Upload(names, deadline), events).file.convertedKey.Some?
    ensures !Stored(Run(Upload(names, deadline), events)) <==> Lost(Upload(names, deadline), events)
  {
    if events != [] {
      var front, last := events[..|events| - 1], events[|events| - 1];
      var s := Run(Upload(names, deadline), front);
      ReachableIsOk(names, deadline, front);
      StepMoves(s, last.event, last.now);
      if s.file.convertedKey.Some? { MissingIffLost(names, deadline, front); }
    }
  }

  /**
   * In every reachable state an order that still needs the file has an undeleted file whose row names a
   * converted document, and that document is in the store unless it was lost.
   */
  lemma {:induction false} ActiveOrdersKeepTheirContent(names: seq<nat>, deadline: int, events: seq<Timed>, j: nat)
    requires names != []
    requires var s := Run(Upload(names, deadline), events);
      j < |s.jobs| && NeedsFile(s.jobs[j].status)
    ensures var s := Run(Upload(names, deadline), events);
      && !s.file.status.Deleted? && s.file.convertedKey.Some? && s.file.deletionScheduledAt.None?
      && (Stored(s) <==> !Lost(Upload(names, deadline), events))
  {
    ReachableIsOk(names, deadline, events);
    MissingIffLost(names, deadline, events);
  }

  /** While an order needs the file, its document never leaves the store. */
  lemma {:induction false} ContentLasts(s: State, events: seq<Timed>, j: nat)
    requires RowOk(s) && Stored(s) && j < |s.jobs|
    requires j < |Run(s, events).jobs| && NeedsFile(Run(s, events).jobs[j].status)
    ensures Stored(Run(s, events)) && RowOk(Run(s, events))
  {
    if events != [] {
      var before, last := Run(s, events[..|events| - 1]), events[|events| - 1];
      JobsOnlyGrow(s, events[..|events| - 1]);
      StillNeeded(before, last.event, last.now, j);
      ContentLasts(s, events[..|events| - 1], j);
      ActiveStepStores(before, last.event, last.now, j);
    }
  }

  lemma {:induction false} JobsOnlyGrow(s: State, events: seq<Timed>)
    ensures |s.jobs| <= |Run(s, events).jobs|
  {
    hide KeysForDeletion, HasActiveJob, ConfirmedTimes, TerminalTimes, NeedsFile, Transition;
    if events != [] { JobsOnlyGrow(s, events[..|events| - 1]); }
  }

  lemma StillNeeded(s: State, e: Event, now: int, j: nat)
    requires j < |s.jobs| && j < |Step(s, e, now).jobs| && NeedsFile(Step(s, e, now).jobs[j].status)
    ensures NeedsFile(s.jobs[j].status)
  {
    hide KeysForDeletion, HasActiveJob, ConfirmedTimes, TerminalTimes, NeedsFile, Transition;
    if e.JobMoved? && e.job == j && Transition(s.jobs[j].status, e.event).Some? { TransitionNeedsFile(s.jobs[j].status, e.event); }
  }

  lemma ActiveStepStores(s: State, e: Event, now: int, j: nat)
    requires RowOk(s) && Stored(s) && j < |s.jobs| && NeedsFile(s.jobs[j].status)
    ensures Stored(Step(s, e, now)) && RowOk(Step(s, e, now))
  {
    hide KeysForDeletion, HasActiveJob, ConfirmedTimes, TerminalTimes, NeedsFile, Transition;
    ActiveIs(s.jobs, j);
  }

  lemma ActiveIs(jobs: seq<Job>, j: nat)
    requires j < |jobs| && NeedsFile(jobs[j].status)
    ensures HasActiveJob(jobs)
  {
  }

  // ---------- what the row tells the order route ----------

  /** The clock runs forwards and has not passed `now`. */
  predicate Timely(events: seq<Timed>, now: int) {
    (forall j, k :: 0 <= j < k < |events| ==> events[j].now <= events[k].now)
    && forall k :: 0 <= k < |events| ==> events[k].now <= now
  }

  lemma {:induction false} LostOnlyAfterDeadline(names: seq<nat>, deadline: int, events: seq<Timed>, now: int)
    requires names != [] && Timely(events, now)
    ensures RowOk(Run(Upload(names, deadline), events))
    ensures Lost(Upload(names, deadline), events) ==> Run(Upload(names, deadline), events).file.deleteAfter.value <= now
  {
    ReachableIsOk(names, deadline, events);
    if events != [] {
      var front, last := events[..|events| - 1], events[|events| - 1];
      LostOnlyAfterDeadline(names, deadline, front, last.now);
      ReachableIsOk(names, deadline, front);
      StepOnlyMovesEarlier(Run(Upload(names, deadline), front), last.event, last.now);
    }
  }

  /** A document named by the row is in the store as long as the deadline is ahead. */
  lemma {:induction false} StoredBeforeDeadline(names: seq<nat>, deadline: int, events: seq<Timed>, now: int)
    requires names != [] && Timely(events, now)
    requires var f := Run(Upload(names, deadline), events).file; f.status.Ready? && !Due(f, now)
    ensures Stored(Run(Upload(names, deadline), events))
  {
    LostOnlyAfterDeadline(names, deadline, events, now);
    MissingIffLost(names, deadline, events);
  }

  /**
   * A condition the order route could check: a new order placed before the file's deadline finds its
   * document in the store, and it stays there as long as the order needs it.
   */
  lemma {:induction false} OrderBeforeDeadlineKeepsContent(names: seq<nat>, deadline: int, events: seq<Timed>, now: int, more: seq<Timed>)
    requires names != [] && Timely(events, now)
    requires var s := Run(Upload(names, deadline), events);
      MayBackNewJob(s) && !Due(s.file, now)
    requires var s := Run(Upload(names, deadline), events);
      var t := Run(CreateJob(s, now), more);
      |s.jobs| < |t.jobs| && NeedsFile(t.jobs[|s.jobs|].status)
    ensures Stored(Run(CreateJob(Run(Upload(names, deadline), events), now), more))
  {
    var s := Run(Upload(names, deadline), events);
    StoredBeforeDeadline(names, deadline, events, now);
    ReachableIsOk(names, deadline, events);
    ContentLasts(CreateJob(s, now), more, |s.jobs|);
  }

  /**
   * And the row tells no more: for a row that takes an order, every timely history of the upload that ends
   * in the same row has the document in the store exactly when the deadline is ahead.
   */
  lemma {:induction false} RowPromisesContentIff(names: seq<nat>, deadline: int, events: seq<Timed>, now: int)
    requires names != [] && Timely(events, now) && MayBackNewJob(Run(Upload(names, deadline), events))
    ensures (forall other: seq<Timed> ::
               Timely(other, now) && Run(Upload(names, deadline), other).file == Run(Upload(names, deadline), events).file
               ==> Stored(Run(Upload(names, deadline), other)))
            <==> !Due(Run(Upload(names, deadline), events).file, now)
  {
    var start := Upload(names, deadline);
    var s := Run(start, events);
    if Due(s.file, now) {
      var attempt := Timed(CleanupRan(|KeysForDeletion(s.file)|, true, false), now);
      ReachableIsOk(names, deadline, events);
      RunSnoc(start, events, attempt);
      UnrecordedAttemptHides(s, now);
      assert Timely(events + [attempt], now) && !Stored(Run(start, events + [attempt]));
    } else {
      forall other: seq<Timed> | Timely(other, now) && Run(start, other).file == s.file ensures Stored(Run(start, other)) {
        StoredBeforeDeadline(names, deadline, other, now);
      }
    }
  }

  /** An attempt that deletes every object and cannot record its failure leaves the row as it was. */
  lemma UnrecordedAttemptHides(s: State, now: int)
    requires Due(s.file, now) && !HasActiveJob(s.jobs) && s.file.convertedKey.Some?
    ensures var t := Cleanup(s, |KeysForDeletion(s.file)|, true, false, now);
      t.file == s.file && t.jobs == s.jobs && !Stored(t)
  {
    var keys := KeysForDeletion(s.file);
    DistinctKeeps((if s.file.sources.Some? then s.file.sources.value else [s.file.originalKey])
                  + Present(s.file.convertedKey) + Present(s.file.previewKey), s.file.convertedKey.value);
    assert Taken(keys, |keys|) == keys;
  }

  /**
   * An order is taken exactly on a ready file without a started clock, none of whose orders still needs the file or
   * has been printed; it adds one order awaiting payment. A file under conversion takes none.
   */
  lemma OrderTakenIff(s: State, now: int)
    ensures CreateJob(s, now)
      == if s.file.status == Ready && s.file.deletionScheduledAt == None
            && (forall job :: job in s.jobs ==>
                  job.status in {Cancelled, Expired} && job.printConfirmedAt == None)
         then s.(jobs := s.jobs + [Job(PendingPayment, None, now)]) else s
    ensures s.file.status != Deleted ==> CreateJob(BeginConversion(s), now) == BeginConversion(s)
  {
    if HasActiveJob(s.jobs) || AlreadyPrinted(s.jobs) {
      var i :| 0 <= i < |s.jobs| && (NeedsFile(s.jobs[i].status) || IsPrintedFileJob(s.jobs[i]));
      assert s.jobs[i] in s.jobs;
    }
    if job :| job in s.jobs && !(job.status in {Cancelled, Expired} && job.printConfirmedAt == None) {
      var i :| 0 <= i < |s.jobs| && s.jobs[i] == job;
      assert NeedsFile(s.jobs[i].status) || IsPrintedFileJob(s.jobs[i]);
    }
  }

  /** What an upload names and stores: each document once, the list only when there are several. */
  lemma UploadStores(names: seq<nat>, deadline: int)
    requires names != []
    ensures var s := Upload(names, deadline);
      && (forall k :: k in s.objects <==> exists i :: 0 <= i < |names| && k == Blob(names[i]))
      && (forall k :: Named(s.file, k) <==> k in s.objects)
      && (s.file.sources.Some? <==> |names| > 1) && s.file.originalKey == Blob(names[0])
      && s.file.status == Uploaded && s.file.deleteAfter == Some(deadline) && s.file.deletionScheduledAt == None && s.jobs == []
  {
    var keys := seq(|names|, i requires 0 <= i < |names| => Blob(names[i]));
    forall k ensures k in keys <==> exists i :: 0 <= i < |names| && k == Blob(names[i]) {
      if i :| 0 <= i < |names| && k == Blob(names[i]) { assert keys[i] == k; }
    }
    if |names| == 1 { assert keys == [keys[0]]; }
  }

  // ---------- what the steps write ----------

  /** A print confirmation stamps its order, every move its time; a refused event writes nothing. */
  lemma MoveWrites(s: State, j: nat, event: JobEvent, now: int)
    ensures MoveJob(s, j, event, now)
      == if j < |s.jobs| && s.jobs[j].status in Sources(event)
         then s.(jobs := s.jobs[j := Job(Target(event), if event in {PrintCompleted, FinishingRequired} then Some(now) else s.jobs[j].printConfirmedAt, now)])
         else s
  {
    if j < |s.jobs| { EventHasOneTarget(s.jobs[j].status, event); }
  }

  lemma NeededOrDone(status: JobStatus)
    ensures NeedsFile(status) <==> status !in {Finishing, ReadyForPickup, Completed, Expired, Cancelled}
  {
  }

  /** The clock starts exactly on an undeleted file none of whose orders can still print, and only to an earlier deadline. */
  lemma ScheduleWrites(s: State, deadline: int, now: int)
    ensures ScheduleEarlierDeletion(s, deadline, now)
      == if s.file.status != Deleted && (s.file.deleteAfter == None || s.file.deleteAfter.value > deadline)
            && (forall job :: job in s.jobs ==> job.status in {Finishing, ReadyForPickup, Completed, Expired, Cancelled})
         then s.(file := s.file.(deleteAfter := Some(deadline), deletionScheduledAt := Some(now), overdue := false)) else s
  {
    if HasActiveJob(s.jobs) {
      var i :| 0 <= i < |s.jobs| && NeedsFile(s.jobs[i].status);
      assert s.jobs[i] in s.jobs;
    }
    if job :| job in s.jobs && job.status !in {Finishing, ReadyForPickup, Completed, Expired, Cancelled} {
      var i :| 0 <= i < |s.jobs| && s.jobs[i] == job;
      NeededOrDone(job.status);
      assert NeedsFile(s.jobs[i].status);
    }
  }

  /** The objects' names are all used up. */
  predicate NamesUsed(s: State) { forall k :: k in s.objects ==> k.Blob? && k.name < s.nextName }

  lemma StepKeepsNames(s: State, e: Event, now: int)
    requires NamesUsed(s)
    ensures NamesUsed(Step(s, e, now))
  {
    hide KeysForDeletion, HasActiveJob, ConfirmedTimes, TerminalTimes, NeedsFile, Transition;
  }

  /** A deleted row names no content: sources, converted document and preview are gone from it, and the deletion is dated. */
  predicate DeletedRowIsBare(f: File) {
    f.status.Deleted? ==>
      f.originalKey == Tombstone && f.sources == None && f.convertedKey == None && f.previewKey == None && f.contentDeletedAt.Some?
  }

  /** The row records this event as an attempt: a deferral, failure or deletion whose write got through. */
  predicate Records(s: State, e: Event, now: int) {
    e.CleanupRan? && s.file.status != Deleted && s.file.deleteAfter.Some? && s.file.deleteAfter.value <= now
    && (e.recorded || (!e.fails && !HasActiveJob(s.jobs)))
  }

  function AttemptsIn(start: State, events: seq<Timed>): nat {
    if events == [] then 0
    else
      var front, last := events[..|events| - 1], events[|events| - 1];
      AttemptsIn(start, front) + if Records(Run(start, front), last.event, last.now) then 1 else 0
  }

  /** Conversion runs under way: one more for each begun on an undeleted row, one less for each that ends. */
  function RunningAfter(running: nat, s: State, e: Event): nat {
    if e.ConversionBegins? && s.file.status != Deleted then running + 1
    else if (e.ConversionSucceeds? || e.ConversionFails?) && running > 0 then running - 1
    else running
  }

  function RunningIn(start: State, events: seq<Timed>): nat {
    if events == [] then 0
    else RunningAfter(RunningIn(start, events[..|events| - 1]), Run(start, events[..|events| - 1]), events[|events| - 1].event)
  }

  lemma StepKeepsAccounts(s: State, e: Event, now: int)
    requires DeletedRowIsBare(s.file)
    ensures var t := Step(s, e, now);
      && DeletedRowIsBare(t.file) && t.inFlight == RunningAfter(s.inFlight, s, e)
      && t.file.deletionAttempts == s.file.deletionAttempts + (if Records(s, e, now) then 1 else 0)
      && (Records(s, e, now) ==> t.file.overdue == !t.file.status.Deleted?)
  {
    hide KeysForDeletion, HasActiveJob, ConfirmedTimes, TerminalTimes, NeedsFile, Transition;
  }

  /** Over every run: a deleted row is bare, the row counts its recorded attempts, every conversion run is accounted for. */
  lemma {:induction false} RunsKeepAccounts(names: seq<nat>, deadline: int, events: seq<Timed>)
    requires names != []
    ensures var start := Upload(names, deadline);
      var s := Run(start, events);
      && NamesUsed(s) && DeletedRowIsBare(s.file) && s.file.deletionAttempts == AttemptsIn(start, events) && s.inFlight == RunningIn(start, events)
      && (events != [] && Records(Run(start, events[..|events| - 1]), events[|events| - 1].event, events[|events| - 1].now) ==>
            s.file.overdue == !s.file.status.Deleted?)
  {
    hide Step, NamesUsed, DeletedRowIsBare, Records, RunningAfter;
    if events == [] {
      UploadNames(names, deadline);
    } else {
      var front, last := events[..|events| - 1], events[|events| - 1];
      RunsKeepAccounts(names, deadline, front);
      StepKeepsNames(Run(Upload(names, deadline), front), last.event, last.now);
      StepKeepsAccounts(Run(Upload(names, deadline), front), last.event, last.now);
    }
  }

  lemma UploadNames(names: seq<nat>, deadline: int)
    requires names != []
    ensures NamesUsed(Upload(names, deadline)) && DeletedRowIsBare(Upload(names, deadline).file)
    ensures Upload(names, deadline).inFlight == 0 && Upload(names, deadline).file.deletionAttempts == 0
  {
  }

  /**
   * How a conversion run ends: success stores one document under a name no object had, and names it in the row as
   * document and preview; failure names nothing new and leaves behind at most one such object.
   */
  lemma ConversionEnds(s: State, orphan: bool)
    requires NamesUsed(s) && s.inFlight > 0
    ensures var t := FinishConversion(s);
      && t.file == s.file.(status := Ready, convertedKey := t.file.convertedKey, previewKey := t.file.convertedKey) && t.jobs == s.jobs
      && t.file.convertedKey.Some? && t.file.convertedKey.value !in s.objects && t.objects == s.objects + {t.file.convertedKey.value}
    ensures var t := FailConversion(s, orphan);
      && t.file == s.file.(status := FileStatus.Failed) && t.jobs == s.jobs
      && (if orphan then exists k :: k !in s.objects && t.objects == s.objects + {k} else t.objects == s.objects)
  {
    assert Blob(s.nextName) !in s.objects;
  }

  lemma RunSnoc(start: State, events: seq<Timed>, e: Timed)
    ensures Run(start, events + [e]) == Step(Run(start, events), e.event, e.now)
  {
    assert (events + [e])[..|events|] == events;
  }

  /** A converted one-document file whose hard deadline is instant 10. */
  function ConvertedRun(): seq<Timed> { [Timed(ConversionBegins, 1)] + [Timed(ConversionSucceeds, 2)] }

  const ConvertedFile := File(Ready, Blob(7), None, Some(Blob(8)), Some(Blob(8)), Some(10), None, 0, None, false)

  lemma ConvertedIs()
    ensures Run(Upload([7], 10), ConvertedRun()) == State(ConvertedFile, [], {Blob(7), Blob(8)}, 9, 0)
    ensures KeysForDeletion(ConvertedFile) == [Blob(7), Blob(8)]
  {
    var s0 := Upload([7], 10);
    UploadedIs();
    RunSnoc(s0, [], Timed(ConversionBegins, 1));
    assert [] + [Timed(ConversionBegins, 1)] == [Timed(ConversionBegins, 1)];
    RunSnoc(s0, [Timed(ConversionBegins, 1)], Timed(ConversionSucceeds, 2));
    var keys := [Blob(7)] + [Blob(8)] + [Blob(8)];
    assert keys[..2] == [Blob(7), Blob(8)] && keys[..2][..1] == [Blob(7)] && keys[..2][..1][..0] == [];
    assert Distinct(keys[..2][..1]) == [Blob(7)];
    assert Distinct(keys[..2]) == [Blob(7), Blob(8)];
    assert Distinct(keys) == [Blob(7), Blob(8)];
  }

  lemma UploadedIs()
    ensures Upload([7], 10) == State(File(Uploaded, Blob(7), None, None, None, Some(10), None, 0, None, false), [], {Blob(7)}, 8, 0)
  {
    assert [7][..0] == [];
    var keys := seq(1, i requires 0 <= i < |[7]| => Blob([7][i]));
    assert keys == [Blob(7)];
    assert (set k | k in [Blob(7)]) == {Blob(7)};
  }

  /**
   * It happens: the hard deadline passes, the deletion fails after its last key, whether or not the failure is
   * recorded the row stays ready, and the next order has no document.
   */
  lemma OrderWithoutContentIsReachable(recorded: bool)
    ensures var failed := ConvertedRun() + [Timed(CleanupRan(2, true, recorded), 20)];
      var s, t := Run(Upload([7], 10), failed), Run(Upload([7], 10), failed + [Timed(OrderCreated, 21)]);
      && MayBackNewJob(s) && s.file.deletionAttempts == (if recorded then 1 else 0)
      && HasActiveJob(t.jobs) && t.file.status.Ready? && t.file.convertedKey == Some(Blob(8)) && !Stored(t)
  {
    var s0 := Upload([7], 10);
    ConvertedIs();
    var failed := ConvertedRun() + [Timed(CleanupRan(2, true, recorded), 20)];
    RunSnoc(s0, ConvertedRun(), Timed(CleanupRan(2, true, recorded), 20));
    RunSnoc(s0, failed, Timed(OrderCreated, 21));
    var s := Run(s0, failed);
    assert s.file.status.Ready? && s.jobs == [];
    assert [Blob(7), Blob(8)][..2] == [Blob(7), Blob(8)] && [Blob(7), Blob(8)][1] == Blob(8);
    var t := CreateJob(s, 21);
    assert t.jobs == [Job(PendingPayment, None, 21)] && NeedsFile(t.jobs[0].status);
  }

  // ---------- runs from any reachable state ----------

  /** A job that no longer needs the file never needs it again. */
  lemma {:induction false} InactiveStaysInactive(s: State, events: seq<Timed>, j: nat)
    requires j < |s.jobs| && !NeedsFile(s.jobs[j].status)
    ensures j < |Run(s, events).jobs| && !NeedsFile(Run(s, events).jobs[j].status)
  {
    if events != [] {
      InactiveStaysInactive(s, events[..|events| - 1], j);
      var before := Run(s, events[..|events| - 1]);
      var e := events[|events| - 1];
      if e.event.JobMoved? && Step(before, e.event, e.now) != before {
        TransitionNeedsFile(before.jobs[e.event.job].status, e.event.event);
      }
    }
  }

  /** The deletion deadline only ever moves earlier, and a started clock is never stopped. */
  lemma {:induction false} DeadlineOnlyMovesEarlier(s: State, events: seq<Timed>)
    requires Inv(s)
    ensures var t := Run(s, events);
      && Inv(t) && t.file.deleteAfter.value <= s.file.deleteAfter.value
      && (s.file.deletionScheduledAt.Some? ==> t.file.deletionScheduledAt.Some?)
  {
    if events != [] {
      DeadlineOnlyMovesEarlier(s, events[..|events| - 1]);
      var before := Run(s, events[..|events| - 1]);
      StepKeepsInv(before, events[|events| - 1].event, events[|events| - 1].now);
      StepOnlyMovesEarlier(before, events[|events| - 1].event, events[|events| - 1].now);
    }
  }

  lemma StepOnlyMovesEarlier(s: State, e: Event, now: int)
    requires Inv(s)
    ensures var t := Step(s, e, now);
      && t.file.deleteAfter.Some? && t.file.deleteAfter.value <= s.file.deleteAfter.value
      && (s.file.deletionScheduledAt.Some? ==> t.file.deletionScheduledAt.Some?)
  {
    hide KeysForDeletion, HasActiveJob, ConfirmedTimes, TerminalTimes, NeedsFile, Transition;
  }

  /** Once the clock has started, no run ever again has an order that needs the file. */
  lemma StartedClockIsFinal(s: State, events: seq<Timed>)
    requires Inv(s) && s.file.deletionScheduledAt.Some?
    ensures !HasActiveJob(Run(s, events).jobs)
  {
    DeadlineOnlyMovesEarlier(s, events);
  }

  lemma {:induction false} TimesAre(jobs: seq<Job>, t: int)
    ensures t in ConfirmedTimes(jobs) <==> exists job :: job in jobs && job.printConfirmedAt == Some(t)
    ensures t in TerminalTimes(jobs) <==> exists job :: job in jobs && job.status in {Cancelled, Expired} && job.updatedAt == t
  {
    if jobs != [] {
      var front, last := jobs[..|jobs| - 1], jobs[|jobs| - 1];
      TimesAre(front, t);
      assert jobs == front + [last];
      assert last in jobs;
    }
  }

  predicate Confirmed(job: Job) { job.printConfirmedAt.Some? }

  predicate Ended(job: Job) { job.status in {Cancelled, Expired} }

  /**
   * After the reconciler, an idle file is due within ten minutes of every confirmed print of it, or, if none was
   * printed, of every cancelled or expired order; and it never sets any other deadline.
   */
  lemma ReconcilerBoundsRetention(s: State)
    requires Inv(s) && !HasActiveJob(s.jobs) && !s.file.status.Deleted?
    ensures var t := ReconcileSchedule(s);
      var due, printed := t.file.deleteAfter.value, exists job :: job in s.jobs && Confirmed(job);
      && (forall job :: job in s.jobs && Confirmed(job) ==> due <= job.printConfirmedAt.value + 600_000)
      && (!printed ==> forall job :: job in s.jobs && Ended(job) ==> due <= job.updatedAt + 600_000)
      && (due == s.file.deleteAfter.value
          || (exists job :: job in s.jobs && Confirmed(job) && due == job.printConfirmedAt.value + 600_000)
          || (!printed && exists job :: job in s.jobs && Ended(job) && due == job.updatedAt + 600_000))
  {
    forall job | job in s.jobs
      ensures Confirmed(job) ==> job.printConfirmedAt.value in ConfirmedTimes(s.jobs)
      ensures Ended(job) ==> job.updatedAt in TerminalTimes(s.jobs)
    {
      if Confirmed(job) { TimesAre(s.jobs, job.printConfirmedAt.value); }
      TimesAre(s.jobs, job.updatedAt);
    }
    if ConfirmedTimes(s.jobs) != [] { TimesAre(s.jobs, Earliest(ConfirmedTimes(s.jobs))); }
    if TerminalTimes(s.jobs) != [] { TimesAre(s.jobs, Earliest(TerminalTimes(s.jobs))); }
  }

  lemma {:induction false} DistinctKeeps(keys: seq<Key>, k: Key)
    ensures k in Distinct(keys) <==> k in keys
  {
    if keys != [] {
      DistinctKeeps(keys[..|keys| - 1], k);
      assert keys == keys[..|keys| - 1] + [keys[|keys| - 1]];
    }
  }

  lemma {:induction false} DistinctHasNoDuplicates(keys: seq<Key>, i: nat, j: nat)
    requires i < j < |Distinct(keys)|
    ensures Distinct(keys)[i] != Distinct(keys)[j]
  {
    var front := Distinct(keys[..|keys| - 1]);
    if j < |front| { DistinctHasNoDuplicates(keys[..|keys| - 1], i, j); }
  }

  /** The keys the row names: sources, converted document and preview. */
  predicate Named(f: File, k: Key) {
    k in (if f.sources.Some? then f.sources.value else [f.originalKey]) || f.convertedKey == Some(k) || f.previewKey == Some(k)
  }

  /**
   * A completed deletion removes exactly the objects the row names; nothing of the file remains exactly
   * when the store held no object the row does not name.
   */
  lemma DeletionRemovesNamedObjects(s: State, reached: nat, recorded: bool, now: int)
    requires Due(s.file, now) && !HasActiveJob(s.jobs)
    ensures var t := Cleanup(s, reached, false, recorded, now);
      && t.file.status.Deleted?
      && (forall k :: k in t.objects <==> k in s.objects && !Named(s.file, k))
      && (t.objects == {} <==> forall k :: k in s.objects ==> Named(s.file, k))
  {
    var keys := (if s.file.sources.Some? then s.file.sources.value else [s.file.originalKey]) + Present(s.file.convertedKey) + Present(s.file.previewKey);
    var t := Cleanup(s, reached, false, recorded, now);
    forall k ensures k in t.objects <==> k in s.objects && !Named(s.file, k) { DistinctKeeps(keys, k); }
  }

  lemma StartIs(start: State)
    ensures Run(start, []) == start
  {
  }

  lemma NoJobs()
    ensures !HasActiveJob([])
  {
  }

  /** Two overlapping conversion runs leave the first one's document in the store for good. */
  lemma EarlierConversionOutlivesDeletion()
    ensures var twice := ConvertedRun()[..1] + ConvertedRun() + [Timed(ConversionSucceeds, 3)];
      var s := Run(Upload([7], 10), twice + [Timed(CleanupRan(0, false, true), 20)]);
      s.file.status.Deleted? && s.objects == {Blob(8)}
  {
    hide Run, KeysForDeletion, HasActiveJob;
    var s0 := Upload([7], 10);
    StartIs(s0);
    NoJobs();
    var begins, done := Timed(ConversionBegins, 1), Timed(ConversionSucceeds, 2);
    UploadedIs();
    RunSnoc(s0, [], begins);
    assert [] + [begins] == [begins];
    RunSnoc(s0, [begins], begins);
    RunSnoc(s0, [begins] + [begins], done);
    assert Run(s0, [begins] + [begins] + [done])
      == State(File(Ready, Blob(7), None, Some(Blob(8)), Some(Blob(8)), Some(10), None, 0, None, false), [], {Blob(7), Blob(8)}, 9, 1);
    RunSnoc(s0, [begins] + [begins] + [done], Timed(ConversionSucceeds, 3));
    var twice := ConvertedRun()[..1] + ConvertedRun() + [Timed(ConversionSucceeds, 3)];
    assert twice == [begins] + [begins] + [done] + [Timed(ConversionSucceeds, 3)];
    RunSnoc(s0, twice, Timed(CleanupRan(0, false, true), 20));
    var s := Run(s0, twice);
    assert s == State(File(Ready, Blob(7), None, Some(Blob(9)), Some(Blob(9)), Some(10), None, 0, None, false), [],
                      {Blob(7), Blob(8), Blob(9)}, 10, 0);
    DeletionRemovesNamedObjects(s, 0, true, 20);
  }

  // ---------- where the promises stop ----------

  /**
   * An order may be placed on a file whose hard deadline has already passed: the clock that refuses new
   * orders is the short one, and a cancellation after the hard deadline does not start it.
   */
  lemma OverdueFileTakesOrders()
    ensures var cancelled := ConvertedRun() + [Timed(OrderCreated, 5)] + [Timed(JobMoved(0, Cancel), 20)] + [Timed(TerminalClock, 20)];
      var s, t := Run(Upload([7], 10), cancelled), Run(Upload([7], 10), cancelled + [Timed(OrderCreated, 21)]);
      && Due(s.file, 20) && s.file.deletionScheduledAt.None? && !HasActiveJob(s.jobs)
      && Due(t.file, 21) && HasActiveJob(t.jobs)
  {
    var s0 := Upload([7], 10);
    ConvertedIs();
    var r1 := ConvertedRun() + [Timed(OrderCreated, 5)];
    var r2 := r1 + [Timed(JobMoved(0, Cancel), 20)];
    var r3 := r2 + [Timed(TerminalClock, 20)];
    RunSnoc(s0, ConvertedRun(), Timed(OrderCreated, 5));
    assert Run(s0, r1).jobs == [Job(PendingPayment, None, 5)];
    RunSnoc(s0, r1, Timed(JobMoved(0, Cancel), 20));
    assert Run(s0, r2).jobs == [Job(Cancelled, None, 20)];
    RunSnoc(s0, r2, Timed(TerminalClock, 20));
    RunSnoc(s0, r3, Timed(OrderCreated, 21));
    assert Run(s0, r3 + [Timed(OrderCreated, 21)]).jobs[1] == Job(PendingPayment, None, 21);
  }

  /** The short clock starts exactly when it would be the earlier one. */
  lemma ClockStartsIffEarlier(s: State, now: int)
    requires Inv(s) && !HasActiveJob(s.jobs) && !s.file.status.Deleted? && s.file.deletionScheduledAt.None?
    ensures var t := Step(s, TerminalClock, now);
      t.file.deletionScheduledAt.Some? <==> s.file.deleteAfter.value > now + 600_000
    ensures Step(s, VerifiedPrintClock, now) == Step(s, TerminalClock, now)
  {
  }

  lemma {:induction false} DeletedStays(s: State, events: seq<Timed>)
    requires s.file.status.Deleted? && s.inFlight == 0
    ensures Run(s, events).file.status.Deleted? && Run(s, events).inFlight == 0
  {
    hide KeysForDeletion, HasActiveJob, ConfirmedTimes, TerminalTimes, NeedsFile, Transition;
    if events != [] { DeletedStays(s, events[..|events| - 1]); }
  }

  /** A deletion is final exactly when no conversion of the file is still running: its last write, success or failure, is unconditional. */
  lemma DeletionIsFinalIff(s: State)
    requires s.file.status.Deleted?
    ensures (forall events: seq<Timed> :: Run(s, events).file.status.Deleted?) <==> s.inFlight == 0
  {
    if s.inFlight == 0 {
      forall events: seq<Timed> ensures Run(s, events).file.status.Deleted? { DeletedStays(s, events); }
    } else {
      RunSnoc(s, [], Timed(ConversionFails(false), 0));
      assert Run(s, [] + [Timed(ConversionFails(false), 0)]).file.status.Failed?;
    }
  }

  /** A run that deletes a file during its conversion; success brings it back ready and overdue, failure brings back a failed row. */
  lemma RevivedFileIsReachable()
    ensures var running := [Timed(ConversionBegins, 1)] + [Timed(CleanupRan(0, false, true), 20)];
      var deleted, done, failed := Run(Upload([7], 10), running), Run(Upload([7], 10), running + [Timed(ConversionSucceeds, 21)]),
                                   Run(Upload([7], 10), running + [Timed(ConversionFails(false), 21)]);
      && deleted.file.status.Deleted? && deleted.inFlight == 1
      && done.file.status.Ready? && Stored(done) && Due(done.file, 21)
      && failed.file.status.Failed?
  {
    hide Run, KeysForDeletion, HasActiveJob;
    var s0 := Upload([7], 10);
    StartIs(s0);
    NoJobs();
    UploadedIs();
    var running := [Timed(ConversionBegins, 1)] + [Timed(CleanupRan(0, false, true), 20)];
    RunSnoc(s0, [], Timed(ConversionBegins, 1));
    assert [] + [Timed(ConversionBegins, 1)] == [Timed(ConversionBegins, 1)];
    RunSnoc(s0, [Timed(ConversionBegins, 1)], Timed(CleanupRan(0, false, true), 20));
    RunSnoc(s0, running, Timed(ConversionSucceeds, 21));
    RunSnoc(s0, running, Timed(ConversionFails(false), 21));
  }

  /** When a deletion attempt fails, the converted document is gone exactly if the attempt reached its key; the row still names it. */
  lemma FailedDeletionLosesContentIff(s: State, reached: nat, recorded: bool, now: int)
    requires Stored(s) && Due(s.file, now) && !HasActiveJob(s.jobs)
    ensures var t := Cleanup(s, reached, true, recorded, now);
      var keys := KeysForDeletion(s.file);
      && t.file.convertedKey == s.file.convertedKey && t.file.status == s.file.status
      && (!Stored(t) <==> exists i :: 0 <= i < reached && i < |keys| && keys[i] == s.file.convertedKey.value)
  {
    var keys := KeysForDeletion(s.file);
    var cut := Taken(keys, reached);
    var c := s.file.convertedKey.value;
    if c in cut {
      var i :| 0 <= i < |cut| && cut[i] == c;
      assert keys[i] == c;
    }
    if exists i :: 0 <= i < reached && i < |keys| && keys[i] == c {
      var i :| 0 <= i < reached && i < |keys| && keys[i] == c;
      assert cut[i] == c;
    }
  }

  // ---------- the code in its own form ----------

  class Store {
    var file: File
    var jobs: seq<Job>
    var objects: set<Key>

    method FileHasActiveJobs() returns (active: bool)
      ensures active == HasActiveJob(jobs)
    {
      active := false;
      for i := 0 to |jobs|
        invariant active <==> exists k :: 0 <= k < i && NeedsFile(jobs[k].status)
      {
        if NeedsFile(jobs[i].status) { active := true; }
      }
    }

    method ScheduleEarlier(deadline: int, now: int) returns (updated: bool)
      modifies this`file
      ensures forall next, running ::
        State(file, jobs, objects, next, running)
        == ScheduleEarlierDeletion(State(old(file), jobs, objects, next, running), deadline, now)
      ensures updated <==> !HasActiveJob(jobs) && !old(file).status.Deleted? && (old(file).deleteAfter.None? || old(file).deleteAfter.value > deadline)
    {
      var active := FileHasActiveJobs();
      if active { return false; }
      if file.status.Deleted? || (file.deleteAfter.Some? && file.deleteAfter.value <= deadline) { return false; }
      file := file.(deleteAfter := Some(deadline), deletionScheduledAt := Some(now), overdue := false);
      updated := true;
    }

    /** Delete the objects one by one, then the row; the object store may refuse any object, and both row writes may fail. */
    method DeleteContent(refused: set<Key>, rowFails: bool, noteFails: bool, now: int) returns (deleted: bool, reached: nat)
      requires !HasActiveJob(jobs)
      modifies this`file, this`objects
      ensures reached <= |KeysForDeletion(old(file))|
      ensures deleted <==> !rowFails && forall i :: 0 <= i < |KeysForDeletion(old(file))| ==> KeysForDeletion(old(file))[i] !in refused
      ensures forall next, running ::
        var after := DeleteDueFile(State(old(file), jobs, old(objects), next, running), reached, !deleted, !noteFails, now);
        after.file == file && after.objects == objects
    {
      var keys := KeysForDeletion(file);
      reached := 0;
      while reached < |keys|
        invariant reached <= |keys| && forall i :: 0 <= i < reached ==> keys[i] !in refused
        invariant objects == old(objects) - (set k | k in keys[..reached]) && file == old(file)
      {
        if keys[reached] in refused {
          RecordFailure(noteFails);
          return false, reached;
        }
        objects := objects - {keys[reached]};
        assert keys[..reached + 1] == keys[..reached] + [keys[reached]];
        reached := reached + 1;
      }
      assert keys[..|keys|] == keys;
      if rowFails {
        RecordFailure(noteFails);
        return false, reached;
      }
      file := file.(status := Deleted, convertedKey := None, previewKey := None, originalKey := Tombstone, sources := None,
                    contentDeletedAt := Some(now), deletionAttempts := file.deletionAttempts + 1, overdue := false);
      deleted := true;
    }

    /** The handler of a failed attempt swallows the failure of its own write. */
    method RecordFailure(noteFails: bool)
      modifies this`file
      ensures file == Noted(old(file), !noteFails)
    {
      if !noteFails { file := file.(deletionAttempts := file.deletionAttempts + 1, overdue := true); }
    }
  }
}
