/**
 * The same file with handlers that read first and write later, other handlers in between: a sweep between
 * its query and its deletion, an order between its checks and its insert, a clock between its count and its update.
 */
module FileRace {
  import opened Options
  import opened StateMachine
  import opened FileRetention

  /** `sweeps` hold the keys their query saw; `orders` have passed the checks; `clocks` hold the deadline to write. */
  datatype World = World(file: State, sweeps: seq<seq<Key>>, orders: nat, clocks: seq<int>)

  datatype Act =
    | SweepRead
    | SweepWrote(sweep: nat, reached: nat, fails: bool, recorded: bool)
    | OrderRead
    | OrderInserted
    | ClockRead(deadline: int)
    | ClockWrote(clock: nat)
    | Other(event: Event)

  /** Conversions and job transitions are single writes. */
  predicate IsSingleWrite(e: Event) {
    e.ConversionBegins? || e.ConversionSucceeds? || e.ConversionFails? || e.JobMoved?
  }

  function Without<T>(items: seq<T>, k: nat): seq<T>
    requires k < |items|
  {
    items[..k] + items[k + 1..]
  }

  /** The attempt goes through the keys it read; its row update names the file by id only. */
  function Delete(s: State, keys: seq<Key>, reached: nat, fails: bool, recorded: bool, now: int): State {
    var f := s.file;
    if fails then s.(file := Noted(f, recorded), objects := s.objects - (set k | k in Taken(keys, reached)))
    else
      s.(file := f.(status := Deleted, convertedKey := None, previewKey := None, originalKey := Tombstone, sources := None,
                    contentDeletedAt := Some(now), deletionAttempts := f.deletionAttempts + 1, overdue := false),
         objects := s.objects - (set k | k in keys))
  }

  function AddOrder(s: State, now: int): State { s.(jobs := s.jobs + [Job(PendingPayment, None, now)]) }

  function Do(w: World, a: Act, now: int): World {
    match a
    case SweepRead =>
      if !Due(w.file.file, now) then w
      else if HasActiveJob(w.file.jobs) then w.(file := Cleanup(w.file, 0, false, true, now))
      else w.(sweeps := w.sweeps + [KeysForDeletion(w.file.file)])
    case SweepWrote(k, reached, fails, recorded) =>
      if k < |w.sweeps| then w.(file := Delete(w.file, w.sweeps[k], reached, fails, recorded, now), sweeps := Without(w.sweeps, k)) else w
    case OrderRead => if MayBackNewJob(w.file) then w.(orders := w.orders + 1) else w
    case OrderInserted => if w.orders > 0 then w.(file := AddOrder(w.file, now), orders := w.orders - 1) else w
    case ClockRead(deadline) => if HasActiveJob(w.file.jobs) then w else w.(clocks := w.clocks + [deadline])
    case ClockWrote(k) =>
      if k < |w.clocks| then
        var f := w.file.file;
        var started := if f.status.Deleted? || (f.deleteAfter.Some? && f.deleteAfter.value <= w.clocks[k]) then f
                       else f.(deleteAfter := Some(w.clocks[k]), deletionScheduledAt := Some(now), overdue := false);
        w.(file := w.file.(file := started), clocks := Without(w.clocks, k))
      else w
    case Other(e) => if IsSingleWrite(e) then w.(file := Step(w.file, e, now)) else w
  }

  function Start(names: seq<nat>, deadline: int): World
    requires names != []
  {
    World(Upload(names, deadline), [], 0, [])
  }

  datatype TimedAct = TimedAct(act: Act, now: int)

  function RunWorld(w: World, acts: seq<TimedAct>): World {
    if acts == [] then w else Do(RunWorld(w, acts[..|acts| - 1]), acts[|acts| - 1].act, acts[|acts| - 1].now)
  }

  /** Read and write in one go are the one-step handlers, and leave nothing under way. */
  lemma AtomicIsOneStep(w: World, reached: nat, fails: bool, recorded: bool, deadline: int, now: int)
    ensures w.sweeps == [] && !HasActiveJob(w.file.jobs) ==>
      Do(Do(w, SweepRead, now), SweepWrote(0, reached, fails, recorded), now) == w.(file := Cleanup(w.file, reached, fails, recorded, now))
    ensures w.orders == 0 ==> Do(Do(w, OrderRead, now), OrderInserted, now) == w.(file := CreateJob(w.file, now))
    ensures w.clocks == [] ==> Do(Do(w, ClockRead(deadline), now), ClockWrote(0), now) == w.(file := ScheduleEarlierDeletion(w.file, deadline, now))
  {
    hide HasActiveJob, KeysForDeletion, AlreadyPrinted;
  }

  // ---------- what can go wrong, exactly ----------

  /** An order that needs the file has an undeleted row and its document in the store. */
  predicate Safe(s: State) { HasActiveJob(s.jobs) ==> !s.file.status.Deleted? && Stored(s) }

  lemma InsertActivates(s: State, now: int)
    ensures HasActiveJob(AddOrder(s, now).jobs)
  {
    assert NeedsFile(AddOrder(s, now).jobs[|s.jobs|].status);
  }

  lemma SingleWriteKeeps(s: State, e: Event, now: int)
    requires IsSingleWrite(e)
    ensures HasActiveJob(Step(s, e, now).jobs) ==> HasActiveJob(s.jobs)
    ensures Stored(s) ==> Stored(Step(s, e, now))
    ensures s.file.convertedKey.Some? ==> (!Stored(Step(s, e, now)) ==> !Stored(s))
    ensures !s.file.status.Deleted? ==> !Step(s, e, now).file.status.Deleted?
    ensures Step(s, e, now).file.deleteAfter == s.file.deleteAfter
  {
    hide NeedsFile, Transition, HasActiveJob;
    if e.JobMoved? && Step(s, e, now) != s {
      TransitionNeedsFile(s.jobs[e.job].status, e.event);
      MovedJobs(s.jobs, e.job, Step(s, e, now).jobs[e.job]);
    }
  }

  lemma ActLosesIff(w: World, a: Act, now: int)
    requires Safe(w.file)
    ensures !Safe(Do(w, a, now).file) <==>
      (a.OrderInserted? && w.orders > 0 && (w.file.file.status.Deleted? || !Stored(w.file)))
      || (a.SweepWrote? && a.sweep < |w.sweeps| && HasActiveJob(w.file.jobs) && Removes(w, a))
  {
    hide NeedsFile, KeysForDeletion, HasActiveJob, MayBackNewJob, Step;
    match a {
      case OrderInserted => InsertActivates(w.file, now);
      case Other(e) => if IsSingleWrite(e) { SingleWriteKeeps(w.file, e, now); }
      case SweepRead =>
      case SweepWrote(k, reached, fails, recorded) =>
      case OrderRead =>
      case ClockRead(deadline) =>
      case ClockWrote(k) =>
    }
  }

  /** The write of a sweep deletes the row, or fails after the current document's key. */
  predicate Removes(w: World, a: Act) {
    a.SweepWrote? && a.sweep < |w.sweeps|
    && (!a.fails || (w.file.file.convertedKey.Some? && w.file.file.convertedKey.value in Taken(w.sweeps[a.sweep], a.reached)))
  }

  predicate Converts(w: World, a: Act) { a == Other(ConversionSucceeds) && w.file.inFlight > 0 }

  /** Since the last successful conversion the write of some sweep has removed the row or the document. */
  predicate Swept(start: World, acts: seq<TimedAct>) {
    acts != []
    && var w, last := RunWorld(start, acts[..|acts| - 1]), acts[|acts| - 1].act;
       !Converts(w, last) && (Removes(w, last) || Swept(start, acts[..|acts| - 1]))
  }

  predicate EverConverted(start: World, acts: seq<TimedAct>) {
    acts != [] && (Converts(RunWorld(start, acts[..|acts| - 1]), acts[|acts| - 1].act) || EverConverted(start, acts[..|acts| - 1]))
  }

  /** Where the document is, given what has happened: `converted` and `swept` are the two histories. */
  predicate Tells(w: World, converted: bool, swept: bool) {
    RowOk(w.file)
    && (w.orders > 0 || w.file.file.convertedKey.Some? ==> converted)
    && (converted ==> (swept <==> w.file.file.status.Deleted? || !Stored(w.file)))
  }

  lemma DoTells(w: World, a: Act, now: int, converted: bool, swept: bool)
    requires Tells(w, converted, swept)
    ensures Tells(Do(w, a, now), Converts(w, a) || converted, !Converts(w, a) && (Removes(w, a) || swept))
  {
    hide NeedsFile, KeysForDeletion, HasActiveJob, Taken, Transition;
  }

  lemma {:induction false} HistoryTells(names: seq<nat>, deadline: int, acts: seq<TimedAct>)
    requires names != []
    ensures var start := Start(names, deadline);
      Tells(RunWorld(start, acts), EverConverted(start, acts), Swept(start, acts))
  {
    hide Tells, Converts, Removes;
    var start := Start(names, deadline);
    if acts == [] {
      UploadTells(names, deadline);
    } else {
      var front, last := acts[..|acts| - 1], acts[|acts| - 1];
      HistoryTells(names, deadline, front);
      DoTells(RunWorld(start, front), last.act, last.now, EverConverted(start, front), Swept(start, front));
    }
  }

  lemma UploadTells(names: seq<nat>, deadline: int)
    requires names != []
    ensures Tells(Start(names, deadline), false, false)
  {
  }

  /**
   * In any interleaving, an act makes an order lose its file exactly when a sweep that read it earlier
   * writes while an order is active, or an order is inserted after such a write and before a new conversion.
   */
  lemma {:induction false} LosesExactly(names: seq<nat>, deadline: int, acts: seq<TimedAct>, a: Act, now: int)
    requires names != []
    ensures var start := Start(names, deadline);
      var w := RunWorld(start, acts);
      Safe(w.file) ==>
        (!Safe(Do(w, a, now).file) <==>
           (Removes(w, a) && HasActiveJob(w.file.jobs)) || (a.OrderInserted? && w.orders > 0 && Swept(start, acts)))
  {
    hide Do, Safe, HasActiveJob, Stored;
    HistoryTells(names, deadline, acts);
    if Safe(RunWorld(Start(names, deadline), acts).file) { ActLosesIff(RunWorld(Start(names, deadline), acts), a, now); }
  }

  // ---------- a condition at the insert ----------

  predicate ClockRuns(acts: seq<TimedAct>) { forall j, k :: 0 <= j < k < |acts| ==> acts[j].now <= acts[k].now }

  function LastTime(acts: seq<TimedAct>): int
    requires acts != []
  {
    acts[|acts| - 1].now
  }

  /** Every insert finds the file still ready and free for an order, and its deadline still ahead. */
  predicate InsertsRecheck(w: World, acts: seq<TimedAct>) {
    forall k :: 0 <= k < |acts| && acts[k].act.OrderInserted? && RunWorld(w, acts[..k]).orders > 0 ==>
      FreshAt(RunWorld(w, acts[..k]).file, acts[k].now)
  }

  predicate FreshAt(s: State, now: int) { s.file.status.Ready? && !Due(s.file, now) }

  /** A sweep is under way, or a document was lost, only after the deadline and without an active order. */
  predicate Guarded(w: World, now: int) {
    Safe(w.file) && RowOk(w.file)
    && (w.sweeps != [] ==> w.file.file.deleteAfter.value <= now && !HasActiveJob(w.file.jobs))
    && (w.file.file.convertedKey.Some? && !Stored(w.file) ==> w.file.file.deleteAfter.value <= now)
  }

  lemma DoKeepsGuarded(w: World, a: Act, now: int)
    requires Guarded(w, now)
    requires a.OrderInserted? && w.orders > 0 ==> FreshAt(w.file, now)
    ensures Guarded(Do(w, a, now), now)
  {
    hide NeedsFile, KeysForDeletion, HasActiveJob, MayBackNewJob, Step, Taken;
    match a {
      case OrderInserted =>
      case Other(e) => if IsSingleWrite(e) { SingleWriteKeeps(w.file, e, now); SingleWriteKeepsRow(w.file, e, now); }
      case SweepRead =>
      case SweepWrote(k, reached, fails, recorded) =>
      case OrderRead =>
      case ClockRead(deadline) =>
      case ClockWrote(k) =>
    }
  }

  lemma SingleWriteKeepsRow(s: State, e: Event, now: int)
    requires IsSingleWrite(e) && RowOk(s)
    ensures RowOk(Step(s, e, now))
    ensures Step(s, e, now).file.convertedKey.Some? && s.file.convertedKey.None? ==> Stored(Step(s, e, now))
  {
    hide NeedsFile, Transition, HasActiveJob;
  }

  lemma {:induction false} RunIsGuarded(names: seq<nat>, deadline: int, acts: seq<TimedAct>, now: int)
    requires names != [] && ClockRuns(acts) && (acts != [] ==> LastTime(acts) <= now)
    requires InsertsRecheck(Start(names, deadline), acts)
    ensures Guarded(RunWorld(Start(names, deadline), acts), now)
  {
    hide Guarded;
    var start := Start(names, deadline);
    if acts == [] {
      UploadIsGuarded(names, deadline, now);
    } else {
      var front, last := acts[..|acts| - 1], acts[|acts| - 1];
      assert forall k :: 0 <= k < |front| ==> front[..k] == acts[..k] && front[k] == acts[k];
      RunIsGuarded(names, deadline, front, last.now);
      DoKeepsGuarded(RunWorld(start, front), last.act, last.now);
      LaterIsGuarded(RunWorld(start, acts), last.now, now);
    }
  }

  lemma UploadIsGuarded(names: seq<nat>, deadline: int, now: int)
    requires names != []
    ensures Guarded(Start(names, deadline), now)
  {
  }

  lemma LaterIsGuarded(w: World, now: int, later: int)
    requires Guarded(w, now) && now <= later
    ensures Guarded(w, later)
  {
  }

  /**
   * However the handlers interleave, no order ever loses its file if every insert still finds the file
   * ready and its deadline ahead: a check of the row alone, made at the insert.
   */
  lemma {:induction false} RecheckedInsertsKeepContent(names: seq<nat>, deadline: int, acts: seq<TimedAct>)
    requires names != [] && ClockRuns(acts) && InsertsRecheck(Start(names, deadline), acts)
    ensures Safe(RunWorld(Start(names, deadline), acts).file)
  {
    RunIsGuarded(names, deadline, acts, if acts == [] then 0 else LastTime(acts));
  }

  // ---------- an insert while a sweep is under way ----------

  predicate NoInsert(acts: seq<TimedAct>) { forall k :: 0 <= k < |acts| ==> !acts[k].act.OrderInserted? }

  predicate Quiet(w: World) { Safe(w.file) && (w.sweeps != [] ==> !HasActiveJob(w.file.jobs)) }

  lemma DoKeepsQuiet(w: World, a: Act, now: int)
    requires Quiet(w) && !a.OrderInserted?
    ensures Quiet(Do(w, a, now))
  {
    hide NeedsFile, KeysForDeletion, HasActiveJob, MayBackNewJob, Step, Taken;
    match a {
      case Other(e) => if IsSingleWrite(e) { SingleWriteKeeps(w.file, e, now); }
      case OrderInserted =>
      case SweepRead =>
      case SweepWrote(k, reached, fails, recorded) =>
      case OrderRead =>
      case ClockRead(deadline) =>
      case ClockWrote(k) =>
    }
  }

  lemma {:induction false} QuietLasts(w: World, acts: seq<TimedAct>)
    requires Quiet(w) && NoInsert(acts)
    ensures Quiet(RunWorld(w, acts))
  {
    hide Quiet;
    if acts != [] {
      QuietLasts(w, acts[..|acts| - 1]);
      DoKeepsQuiet(RunWorld(w, acts[..|acts| - 1]), acts[|acts| - 1].act, acts[|acts| - 1].now);
    }
  }

  /**
   * A new order on a stored, undeleted file keeps it through everything but further inserts exactly when no
   * sweep that has already read the jobs is still under way.
   */
  lemma InsertIsSafeIffNoSweep(w: World, now: int)
    requires w.orders > 0 && !w.file.file.status.Deleted? && Stored(w.file)
    ensures (forall acts: seq<TimedAct> :: NoInsert(acts) ==> Safe(RunWorld(Do(w, OrderInserted, now), acts).file)) <==> w.sweeps == []
  {
    hide HasActiveJob, RunWorld;
    var t := Do(w, OrderInserted, now);
    InsertActivates(w.file, now);
    if w.sweeps == [] {
      forall acts: seq<TimedAct> | NoInsert(acts) ensures Safe(RunWorld(t, acts).file) { QuietLasts(t, acts); }
    } else {
      var write := [TimedAct(SweepWrote(0, 0, false, true), now)];
      OneAct(t, write[0]);
      assert NoInsert(write) && !Safe(RunWorld(t, write).file);
    }
  }

  lemma OneAct(w: World, a: TimedAct)
    ensures RunWorld(w, [a]) == Do(w, a.act, a.now)
  {
    assert [a][..0] == [];
  }

  lemma WorldSnoc(w: World, acts: seq<TimedAct>, a: TimedAct)
    ensures RunWorld(w, acts + [a]) == Do(RunWorld(w, acts), a.act, a.now)
  {
    assert (acts + [a])[..|acts|] == acts;
  }

  /** It happens: a sweep reads the overdue idle file, an order is placed, the sweep deletes the file under it. */
  lemma DeletedUnderOrderIsReachable()
    ensures var acts := [TimedAct(Other(ConversionBegins), 1)] + [TimedAct(Other(ConversionSucceeds), 2)] + [TimedAct(SweepRead, 20)]
                        + [TimedAct(OrderRead, 20)] + [TimedAct(OrderInserted, 21)] + [TimedAct(SweepWrote(0, 2, false, true), 22)];
      var s := RunWorld(World(Upload([7], 10), [], 0, []), acts).file;
      HasActiveJob(s.jobs) && s.file.status.Deleted? && s.objects == {}
  {
    hide RunWorld, KeysForDeletion;
    var w0 := World(Upload([7], 10), [], 0, []);
    UploadedIs();
    ConvertedIs();
    var r1 := [TimedAct(Other(ConversionBegins), 1)];
    var r2 := r1 + [TimedAct(Other(ConversionSucceeds), 2)];
    var r3 := r2 + [TimedAct(SweepRead, 20)];
    var r4 := r3 + [TimedAct(OrderRead, 20)];
    var r5 := r4 + [TimedAct(OrderInserted, 21)];
    OneAct(w0, r1[0]);
    WorldSnoc(w0, r1, TimedAct(Other(ConversionSucceeds), 2));
    var converted := State(ConvertedFile, [], {Blob(7), Blob(8)}, 9, 0);
    assert RunWorld(w0, r2) == World(converted, [], 0, []);
    WorldSnoc(w0, r2, TimedAct(SweepRead, 20));
    assert RunWorld(w0, r3) == World(converted, [[Blob(7), Blob(8)]], 0, []);
    WorldSnoc(w0, r3, TimedAct(OrderRead, 20));
    WorldSnoc(w0, r4, TimedAct(OrderInserted, 21));
    InsertActivates(converted, 21);
    WorldSnoc(w0, r5, TimedAct(SweepWrote(0, 2, false, true), 22));
  }
}
