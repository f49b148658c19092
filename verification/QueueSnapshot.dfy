/** A loaded queue: positions, bands and ETAs, and patching a reveal pass into it without reloading. */
module QueueSnapshot {
  import opened Options
  import opened Numbers
  import opened Sums
  import QB = QueueBands
  import opened RevealPass

  datatype Printer = Printer(id: string, avgPagesPerMinute: int)

  /** What the dashboard and the student see of one job in line. */
  datatype Shown = Shown(jobId: string, position: nat, band: QB.Band, etaMinutes: Option<int>, revealDeadlineAt: Option<int>)

  const DEFAULT_CAPACITY := 5
  const DEFAULT_PAGES_PER_MINUTE := 15

  function CapacityOf(settings: Option<int>): int { if settings.Some? then settings.value else DEFAULT_CAPACITY }

  /** Pages per minute of a printer, at least one; an unknown printer counts 15. */
  function PagesPerMinute(printers: seq<Printer>, id: string): (r: int)
    ensures r >= 1
  {
    if printers == [] then DEFAULT_PAGES_PER_MINUTE
    else
      var p := printers[|printers| - 1];
      if p.id == id then Max(p.avgPagesPerMinute, 1) else PagesPerMinute(printers[..|printers| - 1], id)
  }

  function Pages(job: QueueJob): nat { job.pagesPerCopy * job.copies }

  /** Pages queued for a printer among the first n jobs. */
  function PagesOn(jobs: seq<QueueJob>, n: nat, printer: string): nat
    requires n <= |jobs|
  {
    if n == 0 then 0
    else
      PagesOn(jobs, n - 1, printer) + (if jobs[n - 1].printerId == Some(printer) then Pages(jobs[n - 1]) else 0)
  }

  function CeilDiv(pages: nat, rate: int): int
    requires rate >= 1
  {
    (pages + rate - 1) / rate
  }

  function Eta(printers: seq<Printer>, jobs: seq<QueueJob>, i: nat): Option<int>
    requires i < |jobs|
  {
    if jobs[i].printerId.None? then None
    else Some(CeilDiv(PagesOn(jobs, i, jobs[i].printerId.value), PagesPerMinute(printers, jobs[i].printerId.value)))
  }

  function ShownAt(capacity: int, printers: seq<Printer>, jobs: seq<QueueJob>, i: nat): Shown
    requires i < |jobs|
  {
    var band := Bands(jobs, capacity)[i];
    Shown(jobs[i].id, i + 1, band, Eta(printers, jobs, i), if band.Revealed? then jobs[i].revealDeadlineAt else None)
  }

  function View(capacity: int, printers: seq<Printer>, jobs: seq<QueueJob>): seq<Shown> {
    seq(|jobs|, i requires 0 <= i < |jobs| => ShownAt(capacity, printers, jobs, i))
  }

  predicate DistinctIds(jobs: seq<QueueJob>) {
    forall i, j :: 0 <= i < j < |jobs| ==> jobs[i].id != jobs[j].id
  }

  function PpmMap(printers: seq<Printer>, n: nat): map<string, int>
    requires n <= |printers|
  {
    if n == 0 then map[] else PpmMap(printers, n - 1)[printers[n - 1].id := Max(printers[n - 1].avgPagesPerMinute, 1)]
  }

  lemma {:induction false} PpmMapLookup(printers: seq<Printer>, id: string)
    ensures PagesPerMinute(printers, id)
         == if id in PpmMap(printers, |printers|) then PpmMap(printers, |printers|)[id] else DEFAULT_PAGES_PER_MINUTE
  {
    if printers != [] {
      var init := printers[..|printers| - 1];
      PpmMapLookup(init, id);
      PpmMapPrefix(printers, |init|);
    }
  }

  lemma {:induction false} PpmMapPrefix(printers: seq<Printer>, n: nat)
    requires n < |printers|
    ensures PpmMap(printers[..|printers| - 1], n) == PpmMap(printers, n)
  {
    if n > 0 { PpmMapPrefix(printers, n - 1); }
  }

  /** `buildShopQueue`: one walk along the line with a running page total per printer. */
  method BuildShopQueue(settings: Option<int>, printers: seq<Printer>, jobs: seq<QueueJob>) returns (entries: seq<Shown>)
    requires DistinctIds(jobs)
    ensures entries == View(if settings == None then 5 else settings.value, printers, jobs)
  {
    hide Pages, CeilDiv, QB.AssignBands;
    var capacity := CapacityOf(settings);
    var inputs := BandInputs(jobs);
    var bands := QB.AssignBandMap(inputs, capacity);
    var ppm := PpmMap(printers, |printers|);
    var ahead: map<string, nat> := map[];
    entries := [];
    for i := 0 to |jobs|
      invariant entries == View(capacity, printers, jobs)[..i]
      invariant forall pid :: (if pid in ahead then ahead[pid] else 0) == PagesOn(jobs, i, pid)
    {
      var job := jobs[i];
      QB.BandMapLookup(inputs, QB.AssignBands(inputs, capacity), |inputs|, i);
      var eta := None;
      if job.printerId.Some? {
        var pid := job.printerId.value;
        var pagesAhead := if pid in ahead then ahead[pid] else 0;
        ahead := ahead[pid := pagesAhead + Pages(job)];
        PpmMapLookup(printers, pid);
        eta := Some(CeilDiv(pagesAhead, if pid in ppm then ppm[pid] else DEFAULT_PAGES_PER_MINUTE));
      }
      var band := bands[job.id];
      entries := entries + [Shown(job.id, i + 1, band, eta, if band.Revealed? then job.revealDeadlineAt else None)];
    }
  }

  /** What is shown of a job: its place counted from one, its band, and its deadline only while it is in the revealed band. */
  lemma ViewShows(capacity: int, printers: seq<Printer>, jobs: seq<QueueJob>, i: nat)
    requires i < |jobs|
    ensures var shown, free := View(capacity, printers, jobs)[i], QB.FreeSlots(BandInputs(jobs), capacity);
      && |View(capacity, printers, jobs)| == |jobs|
      && shown.jobId == jobs[i].id && shown.position == i + 1
      && shown.band == QB.BandOfRank(jobs[i].revealedAt.Some?, QB.UnrevealedAhead(BandInputs(jobs), i), free, QB.Cap(capacity))
      && shown.revealDeadlineAt == (if shown.band == QB.Band.Revealed then jobs[i].revealDeadlineAt else None)
      && (shown.etaMinutes.Some? <==> jobs[i].printerId.Some?) && shown.etaMinutes == Eta(printers, jobs, i)
  {
    hide QB.FreeSlots, QB.UnrevealedAhead;
    QB.BandsByRank(BandInputs(jobs), QB.FreeSlots(BandInputs(jobs), capacity), QB.Cap(capacity), i);
  }

  /** The speed used for a printer: its own, at least one page a minute, the last of its name; 15 for an unknown one. */
  lemma {:induction false} SpeedIs(printers: seq<Printer>, id: string, k: nat)
    requires k <= |printers| && forall j :: k <= j < |printers| ==> printers[j].id != id
    requires k > 0 ==> printers[k - 1].id == id
    ensures PagesPerMinute(printers, id)
         == if k == 0 then 15 else if printers[k - 1].avgPagesPerMinute < 1 then 1 else printers[k - 1].avgPagesPerMinute
  {
    if k < |printers| { SpeedIs(printers[..|printers| - 1], id, k); }
  }

  /** An ETA is the pages ahead on that printer in whole minutes, rounded up. */
  lemma EtaRoundsUp(printers: seq<Printer>, jobs: seq<QueueJob>, i: nat)
    requires i < |jobs| && jobs[i].printerId.Some?
    ensures var eta, rate, pages := Eta(printers, jobs, i).value, PagesPerMinute(printers, jobs[i].printerId.value), PagesOn(jobs, i, jobs[i].printerId.value);
      0 <= eta && (eta - 1) * rate < pages <= eta * rate
  {
    CeilDivRoundsUp(PagesOn(jobs, i, jobs[i].printerId.value), PagesPerMinute(printers, jobs[i].printerId.value));
  }

  lemma CeilDivRoundsUp(pages: nat, rate: int)
    requires rate >= 1
    ensures 0 <= CeilDiv(pages, rate) && (CeilDiv(pages, rate) - 1) * rate < pages <= CeilDiv(pages, rate) * rate
  {
    var q, m := (pages + rate - 1) / rate, (pages + rate - 1) % rate;
    assert q * rate + m == pages + rate - 1;
    assert (q - 1) * rate == q * rate - rate;
  }

  lemma CeilDivGrows(pages: nat, more: nat, rate: int)
    requires rate >= 1 && pages <= more
    ensures CeilDiv(pages, rate) <= CeilDiv(more, rate)
  {
    CeilDivRoundsUp(pages, rate);
    CeilDivRoundsUp(more, rate);
    var x, y := CeilDiv(pages, rate), CeilDiv(more, rate);
    if x > y { Multiply(y, x - 1, rate); }
  }

  lemma Multiply(x: int, y: int, rate: int)
    requires x <= y && 0 <= rate
    ensures x * rate <= y * rate
  {
  }

  lemma {:induction false} PagesGrow(jobs: seq<QueueJob>, i: nat, j: nat, printer: string)
    requires i <= j <= |jobs|
    ensures PagesOn(jobs, i, printer) <= PagesOn(jobs, j, printer)
  {
    if i < j { PagesGrow(jobs, i, j - 1, printer); }
  }

  /** Every earlier job on the same printer counts all its copies. */
  lemma {:induction false} PagesAheadAre(jobs: seq<QueueJob>, n: nat, printer: string)
    requires n <= |jobs|
    ensures PagesOn(jobs, n, printer)
         == Sum(seq(n, i requires 0 <= i < n => if jobs[i].printerId == Some(printer) then jobs[i].pagesPerCopy * jobs[i].copies else 0))
  {
    if n > 0 {
      var column := seq(n, i requires 0 <= i < n => if jobs[i].printerId == Some(printer) then jobs[i].pagesPerCopy * jobs[i].copies else 0);
      PagesAheadAre(jobs, n - 1, printer);
      assert column[..n - 1]
        == seq(n - 1, i requires 0 <= i < n - 1 => if jobs[i].printerId == Some(printer) then jobs[i].pagesPerCopy * jobs[i].copies else 0);
    }
  }

  /** Along one printer's line the ETA never decreases. */
  lemma EtaNeverDecreases(printers: seq<Printer>, jobs: seq<QueueJob>, i: nat, j: nat)
    requires i < j < |jobs| && jobs[i].printerId.Some? && jobs[i].printerId == jobs[j].printerId
    ensures Eta(printers, jobs, i).value <= Eta(printers, jobs, j).value
  {
    PagesGrow(jobs, i, j, jobs[i].printerId.value);
    CeilDivGrows(PagesOn(jobs, i, jobs[i].printerId.value), PagesOn(jobs, j, jobs[i].printerId.value),
                 PagesPerMinute(printers, jobs[i].printerId.value));
  }

  // ---------- patching a pass ----------

  datatype PassEvent =
    | RevealWon(jobId: string, revealedAt: int, revealDeadlineAt: Option<int>)
    | ArrivalWon(jobId: string, arrivingNotifiedAt: int)

  /** What one locked pass won, as its RETURNING rows list it, in no particular order. */
  datatype Pass = Pass(revealRows: seq<PassEvent>, arrivalRows: seq<PassEvent>)

  predicate WellFormed(pass: Pass) {
    (forall k :: 0 <= k < |pass.revealRows| ==> pass.revealRows[k].RevealWon?)
    && (forall k :: 0 <= k < |pass.arrivalRows| ==> pass.arrivalRows[k].ArrivalWon?)
  }

  /** `byId`: where the snapshot keeps a job; the later entry, should an id repeat. */
  function Find(jobs: seq<QueueJob>, id: string): (r: Option<nat>)
    ensures r.Some? ==> r.value < |jobs| && jobs[r.value].id == id
    ensures r.None? ==> forall i :: 0 <= i < |jobs| ==> jobs[i].id != id
  {
    if jobs == [] then None
    else if jobs[|jobs| - 1].id == id then Some(|jobs| - 1)
    else Find(jobs[..|jobs| - 1], id)
  }

  function PatchJob(job: QueueJob, e: PassEvent): QueueJob {
    match e
    case RevealWon(_, at, deadline) => job.(revealedAt := Some(at), revealDeadlineAt := deadline)
    case ArrivalWon(_, at) => job.(arrivingNotifiedAt := Some(at))
  }

  /** Patch event by event; a job the snapshot lacks stops the patching and reports false. */
  function Patch(jobs: seq<QueueJob>, events: seq<PassEvent>): (r: (seq<QueueJob>, bool))
    ensures |r.0| == |jobs|
    decreases |events|
  {
    if events == [] then (jobs, true)
    else
      var at := Find(jobs, events[0].jobId);
      if at.None? then (jobs, false)
      else Patch(jobs[at.value := PatchJob(jobs[at.value], events[0])], events[1..])
  }

  class Snapshot {
    const capacity: int
    const printers: seq<Printer>
    var jobs: seq<QueueJob>

    constructor (capacity: int, printers: seq<Printer>, jobs: seq<QueueJob>)
      ensures this.capacity == capacity && this.printers == printers && this.jobs == jobs
    {
      this.capacity, this.printers, this.jobs := capacity, printers, jobs;
    }

    /** `applyPassToQueue`: mutates the loaded jobs; false tells the caller to reload. */
    method ApplyPassToQueue(pass: Pass) returns (complete: bool)
      requires WellFormed(pass)
      modifies this`jobs
      ensures (jobs, complete) == Patch(old(jobs), pass.revealRows + pass.arrivalRows)
    {
      var events := pass.revealRows + pass.arrivalRows;
      for k := 0 to |pass.revealRows|
        invariant Patch(jobs, events[k..]) == Patch(old(jobs), events)
      {
        var r := pass.revealRows[k];
        assert events[k..][0] == r && events[k..][1..] == events[k + 1..];
        var at := Find(jobs, r.jobId);
        if at.None? { return false; }
        jobs := jobs[at.value := jobs[at.value].(revealedAt := Some(r.revealedAt), revealDeadlineAt := r.revealDeadlineAt)];
      }
      for k := 0 to |pass.arrivalRows|
        invariant Patch(jobs, events[|pass.revealRows| + k..]) == Patch(old(jobs), events)
      {
        var a := pass.arrivalRows[k];
        var rest := events[|pass.revealRows| + k..];
        assert rest[0] == a && rest[1..] == events[|pass.revealRows| + k + 1..];
        var at := Find(jobs, a.jobId);
        if at.None? { return false; }
        jobs := jobs[at.value := jobs[at.value].(arrivingNotifiedAt := Some(a.arrivingNotifiedAt))];
      }
      return true;
    }
  }

  predicate DistinctEvents(events: seq<PassEvent>) {
    forall j, k :: 0 <= j < k < |events| ==> events[j].jobId != events[k].jobId
  }

  /** Each job takes the one event that names it, and only that. */
  lemma {:induction false} PatchPointwise(jobs: seq<QueueJob>, events: seq<PassEvent>, i: nat)
    requires DistinctIds(jobs) && DistinctEvents(events) && Patch(jobs, events).1 && i < |jobs|
    ensures var after := Patch(jobs, events).0;
      && (forall k :: 0 <= k < |events| && events[k].jobId == jobs[i].id ==>
            after[i] == match events[k]
                        case RevealWon(_, at, deadline) => jobs[i].(revealedAt := Some(at), revealDeadlineAt := deadline)
                        case ArrivalWon(_, at) => jobs[i].(arrivingNotifiedAt := Some(at)))
      && ((forall k :: 0 <= k < |events| ==> events[k].jobId != jobs[i].id) ==> after[i] == jobs[i])
    decreases |events|
  {
    if events != [] {
      var at := Find(jobs, events[0].jobId).value;
      var next := jobs[at := PatchJob(jobs[at], events[0])];
      assert forall k :: 0 <= k < |next| ==> next[k].id == jobs[k].id;
      PatchPointwise(next, events[1..], i);
      forall k | 0 <= k < |events| && events[k].jobId == jobs[i].id
        ensures Patch(jobs, events).0[i] == PatchJob(jobs[i], events[k])
      {
        if k == 0 {
          assert i == at;
          assert forall m :: 0 <= m < |events[1..]| ==> events[1..][m] == events[m + 1];
        } else {
          assert events[1..][k - 1] == events[k];
        }
      }
    }
  }

  /** Patching reports false exactly when the pass won a job the snapshot does not contain. */
  lemma {:induction false} PatchFailsExactly(jobs: seq<QueueJob>, events: seq<PassEvent>)
    ensures Patch(jobs, events).1 <==> forall k :: 0 <= k < |events| ==> Find(jobs, events[k].jobId).Some?
    decreases |events|
  {
    if events != [] {
      var at := Find(jobs, events[0].jobId);
      if at.Some? {
        var next := jobs[at.value := PatchJob(jobs[at.value], events[0])];
        PatchFailsExactly(next, events[1..]);
        forall k | 1 <= k < |events|
          ensures events[1..][k - 1] == events[k]
          ensures Find(next, events[k].jobId).Some? <==> Find(jobs, events[k].jobId).Some?
        {
          FindSame(jobs, next, events[k].jobId);
        }
      }
    }
  }

  lemma {:induction false} FindSame(jobs: seq<QueueJob>, next: seq<QueueJob>, id: string)
    requires |jobs| == |next| && forall k :: 0 <= k < |jobs| ==> next[k].id == jobs[k].id
    ensures Find(jobs, id) == Find(next, id)
  {
    if jobs != [] { FindSame(jobs[..|jobs| - 1], next[..|next| - 1], id); }
  }

  /** The events a pass over this line returns: one per won row, a reveal with the row's new timestamps. */
  predicate Returned(events: seq<PassEvent>, line: seq<QueueJob>, capacity: int, graceSeconds: int, now: int) {
    DistinctEvents(events)
    && (forall i :: 0 <= i < |line| && PassWins(line, capacity)[i].Some? ==>
          exists k :: 0 <= k < |events| && events[k].jobId == line[i].id)
    && forall k :: 0 <= k < |events| ==>
         exists i :: 0 <= i < |line| && line[i].id == events[k].jobId
                     && ReturnedRow(events[k], RunPass(line, capacity, graceSeconds, now)[i], PassWins(line, capacity)[i])
  }

  predicate ReturnedRow(e: PassEvent, after: QueueJob, win: Option<bool>) {
    match e
    case RevealWon(_, at, deadline) => win == Some(true) && after.revealedAt == Some(at) && after.revealDeadlineAt == deadline
    case ArrivalWon(_, _) => win == Some(false)
  }

  // ---------- a preview read before the pass ----------

  /** The preview lists the pass's own jobs in the pass's own order: nobody left, joined or moved in between. */
  predicate SameJobs(preview: seq<QueueJob>, line: seq<QueueJob>) {
    |preview| == |line| && forall i :: 0 <= i < |line| ==> preview[i].id == line[i].id
  }

  /** The jobs the pass revealed; of every other job the patched preview keeps the reveal it was read with. */
  predicate RevealsWon(line: seq<QueueJob>, capacity: int, i: nat)
    requires i < |line|
  {
    PassWins(line, capacity)[i] == Some(true)
  }

  function MergedInputs(preview: seq<QueueJob>, line: seq<QueueJob>, capacity: int): (r: seq<QB.BandInput>)
    requires |preview| == |line|
    ensures |r| == |line|
  {
    seq(|line|, i requires 0 <= i < |line| =>
      QB.BandInput(preview[i].id, preview[i].revealedAt.Some? || RevealsWon(line, capacity, i)))
  }

  /** Every job the pass did not reveal gets the line's band, and in the revealed band it was read with the line's deadline. */
  predicate OthersAgree(preview: seq<QueueJob>, line: seq<QueueJob>, capacity: int)
    requires |preview| == |line|
  {
    forall i :: 0 <= i < |line| && !RevealsWon(line, capacity, i) ==>
      QB.AssignBands(MergedInputs(preview, line, capacity), capacity)[i] == Bands(line, capacity)[i]
      && (Bands(line, capacity)[i].Revealed? ==> preview[i].revealDeadlineAt == line[i].revealDeadlineAt)
  }

  predicate SameEtas(printers: seq<Printer>, x: seq<QueueJob>, y: seq<QueueJob>)
    requires |x| == |y|
  {
    forall i :: 0 <= i < |x| ==> Eta(printers, x, i) == Eta(printers, y, i)
  }

  /** What rows show besides who they are and when they are served. */
  predicate SameReveals(capacity: int, x: seq<QueueJob>, y: seq<QueueJob>)
    requires |x| == |y|
  {
    forall i :: 0 <= i < |x| ==>
      Bands(x, capacity)[i] == Bands(y, capacity)[i]
      && (Bands(x, capacity)[i].Revealed? ==> x[i].revealDeadlineAt == y[i].revealDeadlineAt)
  }

  /** Patching writes timestamps only: ids, printers and page counts stay. */
  lemma {:induction false} PatchKeepsLoad(jobs: seq<QueueJob>, events: seq<PassEvent>, i: nat)
    requires i < |jobs|
    ensures var x, y := Patch(jobs, events).0[i], jobs[i];
      x.id == y.id && x.printerId == y.printerId && x.pagesPerCopy == y.pagesPerCopy && x.copies == y.copies
    decreases |events|
  {
    if events != [] {
      var at := Find(jobs, events[0].jobId);
      if at.Some? { PatchKeepsLoad(jobs[at.value := PatchJob(jobs[at.value], events[0])], events[1..], i); }
    }
  }

  lemma {:induction false} SameLoadPages(x: seq<QueueJob>, y: seq<QueueJob>, n: nat, printer: string)
    requires |x| == |y| && n <= |x|
    requires forall i :: 0 <= i < |x| ==> x[i].printerId == y[i].printerId && x[i].pagesPerCopy == y[i].pagesPerCopy && x[i].copies == y[i].copies
    ensures PagesOn(x, n, printer) == PagesOn(y, n, printer)
  {
    if n > 0 { SameLoadPages(x, y, n - 1, printer); }
  }

  lemma SameLoadEtas(printers: seq<Printer>, x: seq<QueueJob>, y: seq<QueueJob>)
    requires |x| == |y|
    requires forall i :: 0 <= i < |x| ==> x[i].printerId == y[i].printerId && x[i].pagesPerCopy == y[i].pagesPerCopy && x[i].copies == y[i].copies
    ensures SameEtas(printers, x, y)
  {
    forall i | 0 <= i < |x| ensures Eta(printers, x, i) == Eta(printers, y, i) {
      if x[i].printerId.Some? { SameLoadPages(x, y, i, x[i].printerId.value); }
    }
  }

  lemma PatchKeepsEtas(printers: seq<Printer>, jobs: seq<QueueJob>, events: seq<PassEvent>)
    ensures SameEtas(printers, Patch(jobs, events).0, jobs)
  {
    forall i | 0 <= i < |jobs|
      ensures var x, y := Patch(jobs, events).0[i], jobs[i];
        x.printerId == y.printerId && x.pagesPerCopy == y.pagesPerCopy && x.copies == y.copies
    {
      PatchKeepsLoad(jobs, events, i);
    }
    SameLoadEtas(printers, Patch(jobs, events).0, jobs);
  }

  lemma PassKeepsEtas(printers: seq<Printer>, line: seq<QueueJob>, capacity: int, graceSeconds: int, now: int)
    ensures SameEtas(printers, RunPass(line, capacity, graceSeconds, now), line)
  {
    SameLoadEtas(printers, RunPass(line, capacity, graceSeconds, now), line);
  }

  lemma ViewsEqualIff(capacity: int, printers: seq<Printer>, x: seq<QueueJob>, y: seq<QueueJob>)
    ensures View(capacity, printers, x) == View(capacity, printers, y)
      <==> (SameJobs(x, y) && SameEtas(printers, x, y) && SameReveals(capacity, x, y))
  {
    hide Eta, Bands, ShownAt;
    var u, v := View(capacity, printers, x), View(capacity, printers, y);
    assert |u| == |x| && |v| == |y|;
    if |x| == |y| {
      forall i | 0 <= i < |x| ensures u[i] == v[i] <==> ShownAlike(capacity, printers, x, y, i) {
        ShownEqualIff(capacity, printers, x, y, i);
      }
      assert u == v <==> forall i :: 0 <= i < |x| ==> u[i] == v[i];
      assert (forall i :: 0 <= i < |x| ==> u[i] == v[i]) <==> forall i :: 0 <= i < |x| ==> ShownAlike(capacity, printers, x, y, i);
      AlikeEverywhere(capacity, printers, x, y);
    }
  }

  predicate ShownAlike(capacity: int, printers: seq<Printer>, x: seq<QueueJob>, y: seq<QueueJob>, i: nat)
    requires i < |x| == |y|
  {
    x[i].id == y[i].id && Eta(printers, x, i) == Eta(printers, y, i) && Bands(x, capacity)[i] == Bands(y, capacity)[i]
    && (Bands(x, capacity)[i].Revealed? ==> x[i].revealDeadlineAt == y[i].revealDeadlineAt)
  }

  lemma ShownEqualIff(capacity: int, printers: seq<Printer>, x: seq<QueueJob>, y: seq<QueueJob>, i: nat)
    requires i < |x| == |y|
    ensures ShownAt(capacity, printers, x, i) == ShownAt(capacity, printers, y, i) <==> ShownAlike(capacity, printers, x, y, i)
  {
    hide Eta, Bands;
  }

  lemma AlikeEverywhere(capacity: int, printers: seq<Printer>, x: seq<QueueJob>, y: seq<QueueJob>)
    requires |x| == |y|
    ensures (forall i :: 0 <= i < |x| ==> ShownAlike(capacity, printers, x, y, i))
      <==> (SameJobs(x, y) && SameEtas(printers, x, y) && SameReveals(capacity, x, y))
  {
    hide Eta, Bands;
    if forall i :: 0 <= i < |x| ==> ShownAlike(capacity, printers, x, y, i) {
      forall i | 0 <= i < |x|
        ensures x[i].id == y[i].id && Eta(printers, x, i) == Eta(printers, y, i) && Bands(x, capacity)[i] == Bands(y, capacity)[i]
        ensures Bands(x, capacity)[i].Revealed? ==> x[i].revealDeadlineAt == y[i].revealDeadlineAt
      {
        assert ShownAlike(capacity, printers, x, y, i);
      }
    }
  }

  /**
   * For any preview whatever: it patches completely exactly when it has every job the pass won, and then
   * shows what a reload shows exactly when it lists the same jobs in the same order, with the same ETAs
   * as the line the pass ran on, and with the bands the line had and the deadlines the pass left.
   */
  lemma PatchedPreviewShowsReloadIff(printers: seq<Printer>, preview: seq<QueueJob>, line: seq<QueueJob>, events: seq<PassEvent>,
                                     capacity: int, graceSeconds: int, now: int)
    ensures var (patched, complete) := Patch(preview, events);
      var reload := RunPass(line, capacity, graceSeconds, now);
      && (complete <==> forall k :: 0 <= k < |events| ==> Find(preview, events[k].jobId).Some?)
      && (View(capacity, printers, patched) == View(capacity, printers, reload)
          <==> (SameJobs(preview, line) && SameEtas(printers, preview, line) && SameReveals(capacity, patched, reload)))
  {
    hide Eta, Bands;
    var patched, reload := Patch(preview, events).0, RunPass(line, capacity, graceSeconds, now);
    PatchFailsExactly(preview, events);
    ViewsEqualIff(capacity, printers, patched, reload);
    PatchKeepsEtas(printers, preview, events);
    PassKeepsEtas(printers, line, capacity, graceSeconds, now);
    forall i | 0 <= i < |preview| ensures patched[i].id == preview[i].id { PatchKeepsLoad(preview, events, i); }
    PassKeepsIds(line, capacity, graceSeconds, now);
  }

  lemma PassKeepsIds(line: seq<QueueJob>, capacity: int, graceSeconds: int, now: int)
    ensures SameJobs(RunPass(line, capacity, graceSeconds, now), line)
  {
  }

  /**
   * A preview read before the lock, whoever wrote in between: patching it is complete and shows what a reload
   * shows exactly when no job left, joined or moved in between, no reassignment changed an ETA, and the
   * jobs this pass did not reveal get the line's bands and carry the line's deadlines.
   */
  lemma {:induction false} PreviewPatchEqualsReloadIff(printers: seq<Printer>, preview: seq<QueueJob>, line: seq<QueueJob>, events: seq<PassEvent>,
                                    capacity: int, graceSeconds: int, now: int)
    requires DistinctIds(preview) && DistinctIds(line) && Returned(events, line, capacity, graceSeconds, now)
    ensures var (patched, complete) := Patch(preview, events);
      (complete && View(capacity, printers, patched) == View(capacity, printers, RunPass(line, capacity, graceSeconds, now)))
      <==> (SameJobs(preview, line) && SameEtas(printers, preview, line) && OthersAgree(preview, line, capacity))
  {
    hide Eta, Bands, View, OthersAgree, SameReveals;
    PatchedPreviewShowsReloadIff(printers, preview, line, events, capacity, graceSeconds, now);
    if SameJobs(preview, line) { SameJobsPatch(preview, line, events, capacity, graceSeconds, now); }
  }

  /** One patched job of a preview, beside the row the pass wrote. */
  lemma PatchedJobIs(preview: seq<QueueJob>, line: seq<QueueJob>, events: seq<PassEvent>, capacity: int, graceSeconds: int, now: int, i: nat)
    requires DistinctIds(preview) && Returned(events, line, capacity, graceSeconds, now) && Patch(preview, events).1 && i < |line|
    requires SameJobs(preview, line)
    ensures var patched, row := Patch(preview, events).0[i], RunPass(line, capacity, graceSeconds, now)[i];
      if RevealsWon(line, capacity, i)
      then patched.revealedAt.Some? && row.revealedAt.Some? && patched.revealDeadlineAt == row.revealDeadlineAt
      else patched.revealedAt == preview[i].revealedAt && patched.revealDeadlineAt == preview[i].revealDeadlineAt
           && row.revealDeadlineAt == line[i].revealDeadlineAt
  {
    hide PassWins;
    PatchPointwise(preview, events, i);
    assert preview[i].id == line[i].id;
    if k :| 0 <= k < |events| && events[k].jobId == line[i].id {
      var j :| 0 <= j < |line| && line[j].id == events[k].jobId
               && ReturnedRow(events[k], RunPass(line, capacity, graceSeconds, now)[j], PassWins(line, capacity)[j]);
      assert preview[j].id == preview[i].id;
      assert j == i;
    } else {
      assert PassWins(line, capacity)[i].None?;
    }
  }

  lemma SameJobsComplete(preview: seq<QueueJob>, line: seq<QueueJob>, events: seq<PassEvent>, capacity: int, graceSeconds: int, now: int)
    requires Returned(events, line, capacity, graceSeconds, now) && SameJobs(preview, line)
    ensures Patch(preview, events).1
  {
    hide PassWins, RunPass;
    forall k | 0 <= k < |events| ensures Find(preview, events[k].jobId).Some? {
      var i :| 0 <= i < |line| && line[i].id == events[k].jobId
               && ReturnedRow(events[k], RunPass(line, capacity, graceSeconds, now)[i], PassWins(line, capacity)[i]);
      assert preview[i].id == events[k].jobId;
    }
    PatchFailsExactly(preview, events);
  }

  lemma SameJobsPatch(preview: seq<QueueJob>, line: seq<QueueJob>, events: seq<PassEvent>, capacity: int, graceSeconds: int, now: int)
    requires DistinctIds(preview) && Returned(events, line, capacity, graceSeconds, now) && SameJobs(preview, line)
    ensures Patch(preview, events).1
    ensures SameReveals(capacity, Patch(preview, events).0, RunPass(line, capacity, graceSeconds, now)) <==> OthersAgree(preview, line, capacity)
  {
    hide PassWins, RunPass, QB.AssignBands, RevealsWon, Returned, Patch;
    SameJobsComplete(preview, line, events, capacity, graceSeconds, now);
    var patched, reload := Patch(preview, events).0, RunPass(line, capacity, graceSeconds, now);
    forall i | 0 <= i < |line|
      ensures BandInputs(patched)[i] == MergedInputs(preview, line, capacity)[i]
      ensures RevealsWon(line, capacity, i) ==> patched[i].revealDeadlineAt == reload[i].revealDeadlineAt
      ensures !RevealsWon(line, capacity, i) ==>
        patched[i].revealDeadlineAt == preview[i].revealDeadlineAt && reload[i].revealDeadlineAt == line[i].revealDeadlineAt
    {
      PatchedJobIs(preview, line, events, capacity, graceSeconds, now, i);
      PatchKeepsLoad(preview, events, i);
    }
    assert BandInputs(patched) == MergedInputs(preview, line, capacity);
    PassKeepsBands(line, capacity, graceSeconds, now);
    forall i | 0 <= i < |line| && RevealsWon(line, capacity, i)
      ensures Bands(patched, capacity)[i].Revealed? && Bands(line, capacity)[i].Revealed?
    {
      WonIsRevealed(preview, line, capacity, i);
    }
  }

  lemma WonIsRevealed(preview: seq<QueueJob>, line: seq<QueueJob>, capacity: int, i: nat)
    requires |preview| == |line| && i < |line| && RevealsWon(line, capacity, i)
    ensures QB.AssignBands(MergedInputs(preview, line, capacity), capacity)[i].Revealed? && Bands(line, capacity)[i].Revealed?
  {
    hide PassWins;
    var merged := MergedInputs(preview, line, capacity);
    QB.BandsByRank(merged, QB.FreeSlots(merged, capacity), QB.Cap(capacity), i);
    PassWinsWhatLoopSays(line, capacity, i);
  }

  predicate FrontOnly(jobs: seq<QueueJob>, capacity: int) {
    forall k :: QB.Cap(capacity) <= k < |jobs| ==> jobs[k].revealedAt.None?
  }

  /**
   * While only jobs within the counter's capacity are revealed, bands cannot go stale: what can is the
   * order, an ETA, and the deadline of a job that was already revealed when this pass took the lock.
   */
  lemma {:induction false} StaleDeadlinesIff(printers: seq<Printer>, preview: seq<QueueJob>, line: seq<QueueJob>, events: seq<PassEvent>,
                          capacity: int, graceSeconds: int, now: int)
    requires DistinctIds(preview) && DistinctIds(line) && Returned(events, line, capacity, graceSeconds, now)
    requires FrontOnly(preview, capacity) && FrontOnly(line, capacity)
    ensures var (patched, complete) := Patch(preview, events);
      (complete && View(capacity, printers, patched) == View(capacity, printers, RunPass(line, capacity, graceSeconds, now)))
      <==> (SameJobs(preview, line) && SameEtas(printers, preview, line)
            && forall i :: 0 <= i < |line| && line[i].revealedAt.Some? ==> preview[i].revealDeadlineAt == line[i].revealDeadlineAt)
  {
    hide Eta, Bands, View, Patch, Returned, OthersAgree, PassWins;
    PreviewPatchEqualsReloadIff(printers, preview, line, events, capacity, graceSeconds, now);
    if SameJobs(preview, line) { FrontAgreesIff(preview, line, capacity); }
  }

  lemma FrontAgreesIff(preview: seq<QueueJob>, line: seq<QueueJob>, capacity: int)
    requires |preview| == |line| && FrontOnly(preview, capacity) && FrontOnly(line, capacity)
    ensures OthersAgree(preview, line, capacity)
      <==> forall i :: 0 <= i < |line| && line[i].revealedAt.Some? ==> preview[i].revealDeadlineAt == line[i].revealDeadlineAt
  {
    hide PassWins, QB.AssignBands;
    var merged := MergedInputs(preview, line, capacity);
    forall i | 0 <= i < |line|
      ensures QB.QueueBand(Some(i + 1), capacity) == Some(Bands(line, capacity)[i])
      ensures RevealsWon(line, capacity, i) <==> line[i].revealedAt.None? && Bands(line, capacity)[i].Revealed?
      ensures line[i].revealedAt.Some? ==> Bands(line, capacity)[i].Revealed?
    {
      QB.FrontBandsArePositional(BandInputs(line), capacity, i);
      PassWinsWhatLoopSays(line, capacity, i);
    }
    forall i | 0 <= i < |line| ensures QB.QueueBand(Some(i + 1), capacity) == Some(QB.AssignBands(merged, capacity)[i]) {
      QB.FrontBandsArePositional(merged, capacity, i);
    }
  }

  /**
   * It happens: another pass reveals the only job between the read and the lock, this pass wins nothing,
   * the patch is complete, and the student is shown revealed without the deadline a reload shows.
   */
  lemma PreviewMissesConcurrentReveal(printers: seq<Printer>, job: QueueJob, graceSeconds: int, at: int, now: int)
    requires job.revealedAt.None? && job.revealDeadlineAt.None?
    ensures var line := RunPass([job], DEFAULT_CAPACITY, graceSeconds, at);
      && NeedsReconcile([job], DEFAULT_CAPACITY) && Returned([], line, DEFAULT_CAPACITY, graceSeconds, now)
      && Patch([job], []) == ([job], true)
      && View(DEFAULT_CAPACITY, printers, [job]) != View(DEFAULT_CAPACITY, printers, RunPass(line, DEFAULT_CAPACITY, graceSeconds, now))
  {
    hide PassWins, Eta, QB.AssignBands, QB.FreeSlots;
    var line := RunPass([job], DEFAULT_CAPACITY, graceSeconds, at);
    QB.FrontBandsArePositional(BandInputs([job]), DEFAULT_CAPACITY, 0);
    PassWinsWhatLoopSays([job], DEFAULT_CAPACITY, 0);
    assert line == [job.(revealedAt := Some(at), revealDeadlineAt := Some(at + graceSeconds * 1000), updatedAt := at)];
    PassWinsWhatLoopSays(line, DEFAULT_CAPACITY, 0);
    StaleDeadlinesIff(printers, [job], line, [], DEFAULT_CAPACITY, graceSeconds, now);
  }

  /** The snapshot of the very line the pass ran on always patches to what a reload shows. */
  lemma {:induction false} PatchEqualsReload(printers: seq<Printer>, line: seq<QueueJob>, events: seq<PassEvent>,
                          capacity: int, graceSeconds: int, now: int)
    requires DistinctIds(line) && Returned(events, line, capacity, graceSeconds, now)
    ensures var (patched, complete) := Patch(line, events);
      complete && View(capacity, printers, patched) == View(capacity, printers, RunPass(line, capacity, graceSeconds, now))
  {
    hide Returned, Patch, View, RunPass, PassWins;
    PreviewPatchEqualsReloadIff(printers, line, line, events, capacity, graceSeconds, now);
    OwnLineAgrees(line, capacity, graceSeconds, now);
  }

  lemma OwnLineAgrees(line: seq<QueueJob>, capacity: int, graceSeconds: int, now: int)
    ensures OthersAgree(line, line, capacity)
  {
    hide PassWins, QB.AssignBands;
    var reload := RunPass(line, capacity, graceSeconds, now);
    PassKeepsBands(line, capacity, graceSeconds, now);
    forall i | 0 <= i < |line| ensures BandInputs(reload)[i] == MergedInputs(line, line, capacity)[i] {
      PassWinsWhatLoopSays(line, capacity, i);
    }
    assert BandInputs(reload) == MergedInputs(line, line, capacity);
  }
}
