/** The locked reveal pass: one set-based UPDATE over the shop's line, in row_number() order. */
module RevealPass {
  import opened Options
  import opened Numbers
  import opened QueueBands

  /** The columns of a job in the live line that the queue reads or writes. */
  datatype QueueJob = QueueJob(
    id: string, studentId: string, queuedAt: Option<int>, createdAt: int, checkInCount: int,
    revealedAt: Option<int>, revealDeadlineAt: Option<int>, arrivingNotifiedAt: Option<int>, updatedAt: int,
    printerId: Option<string>, pagesPerCopy: nat, copies: nat)

  function BandInputs(line: seq<QueueJob>): (r: seq<BandInput>)
    ensures |r| == |line|
  {
    seq(|line|, i requires 0 <= i < |line| => BandInput(line[i].id, line[i].revealedAt.Some?))
  }

  function Bands(line: seq<QueueJob>, capacity: int): (r: seq<Band>)
    ensures |r| == |line|
  {
    AssignBands(BandInputs(line), capacity)
  }

  /** Would a pass have anything to write? */
  predicate NeedsReconcile(line: seq<QueueJob>, capacity: int) {
    exists i :: 0 <= i < |line| && line[i].revealedAt.None?
      && (Bands(line, capacity)[i].Revealed? || (Bands(line, capacity)[i].Arriving? && line[i].arrivingNotifiedAt.None?))
  }

  // ---------- the statement, CTE by CTE ----------

  /** `st.free`: GREATEST(0, cap - count of revealed rows). */
  function SqlFree(line: seq<QueueJob>, capacity: int): nat {
    var revealed := CountRevealed(line, |line|);
    if Cap(capacity) - revealed > 0 then Cap(capacity) - revealed else 0
  }

  function CountRevealed(line: seq<QueueJob>, n: nat): nat
    requires n <= |line|
  {
    if n == 0 then 0 else CountRevealed(line, n - 1) + (if line[n - 1].revealedAt.Some? then 1 else 0)
  }

  /** A row of CTE `un`: an unrevealed row and its row_number() among them. */
  datatype UnRow = UnRow(pos: nat, urank: nat)

  function UnRows(line: seq<QueueJob>, n: nat): (r: seq<UnRow>)
    requires n <= |line|
    ensures forall k :: 0 <= k < |r| ==> r[k].pos < n && r[k].urank == k + 1
  {
    if n == 0 then []
    else
      var r := UnRows(line, n - 1);
      if line[n - 1].revealedAt.None? then r + [UnRow(n - 1, |r| + 1)] else r
  }

  /** A row of CTE `pick`. */
  datatype PickRow = PickRow(pos: nat, isReveal: bool)

  function Picks(line: seq<QueueJob>, rows: seq<UnRow>, free: nat, cap: nat): (r: seq<PickRow>)
    requires forall k :: 0 <= k < |rows| ==> rows[k].pos < |line|
    ensures forall k :: 0 <= k < |r| ==> r[k].pos < |line|
  {
    if rows == [] then []
    else
      var init, u := Picks(line, rows[..|rows| - 1], free, cap), rows[|rows| - 1];
      if u.urank <= free || (u.urank <= free + cap && line[u.pos].arrivingNotifiedAt.None?)
      then init + [PickRow(u.pos, u.urank <= free)] else init
  }

  function PassPicks(line: seq<QueueJob>, capacity: int): (r: seq<PickRow>)
    ensures forall k :: 0 <= k < |r| ==> r[k].pos < |line|
  {
    Picks(line, UnRows(line, |line|), SqlFree(line, capacity), Cap(capacity))
  }

  /** The SET clause on one won row. */
  function WonRow(job: QueueJob, isReveal: bool, graceSeconds: int, now: int): QueueJob {
    if isReveal
    then job.(revealedAt := Some(now), revealDeadlineAt := Some(now + graceSeconds * 1000), updatedAt := now)
    else job.(arrivingNotifiedAt := Some(now), updatedAt := now)
  }

  /** The UPDATE's own WHERE clause, evaluated again on the row. */
  predicate Winnable(job: QueueJob, isReveal: bool) {
    job.revealedAt.None? && (isReveal || job.arrivingNotifiedAt.None?)
  }

  function Won(line: seq<QueueJob>, picks: seq<PickRow>, pos: nat): Option<bool>
    requires pos < |line|
  {
    if picks == [] then None
    else
      var p := picks[|picks| - 1];
      if p.pos == pos && Winnable(line[pos], p.isReveal) then Some(p.isReveal) else Won(line, picks[..|picks| - 1], pos)
  }

  /** Which rows the statement returns: None, or whether the row was won as a reveal. */
  function PassWins(line: seq<QueueJob>, capacity: int): (r: seq<Option<bool>>)
    ensures |r| == |line|
  {
    seq(|line|, i requires 0 <= i < |line| => Won(line, PassPicks(line, capacity), i))
  }

  function RunPass(line: seq<QueueJob>, capacity: int, graceSeconds: int, now: int): (r: seq<QueueJob>)
    ensures |r| == |line|
  {
    seq(|line|, i requires 0 <= i < |line| =>
      match PassWins(line, capacity)[i] case None => line[i] case Some(isReveal) => WonRow(line[i], isReveal, graceSeconds, now))
  }

  // ---------- the statement does what the loop says ----------

  lemma {:induction false} CountsAgree(line: seq<QueueJob>, n: nat)
    requires n <= |line|
    ensures CountRevealed(line, n) == RevealedCount(BandInputs(line)[..n])
    ensures |UnRows(line, n)| == UnrevealedAhead(BandInputs(line), n)
  {
    if n > 0 {
      assert BandInputs(line)[..n][..n - 1] == BandInputs(line)[..n - 1];
      CountsAgree(line, n - 1);
    }
  }

  lemma FreeAgrees(line: seq<QueueJob>, capacity: int)
    ensures SqlFree(line, capacity) == FreeSlots(BandInputs(line), capacity)
  {
    CountsAgree(line, |line|);
    assert BandInputs(line)[..|line|] == BandInputs(line);
  }

  /** What the picks of the first n ranked rows say about one row. */
  predicate PickDecides(line: seq<QueueJob>, picks: seq<PickRow>, pos: nat, n: nat, free: nat, cap: nat)
    requires pos < |line|
  {
    var ahead := UnrevealedAhead(BandInputs(line), pos);
    Won(line, picks, pos)
    == if pos < n && line[pos].revealedAt.None? && ahead < free then Some(true)
       else if pos < n && line[pos].revealedAt.None? && ahead < free + cap && line[pos].arrivingNotifiedAt.None? then Some(false)
       else None
  }

  lemma PickOne(line: seq<QueueJob>, rows: seq<UnRow>, u: UnRow, free: nat, cap: nat, pos: nat)
    requires forall k :: 0 <= k < |rows + [u]| ==> (rows + [u])[k].pos < |line|
    requires pos < |line| && u.pos < |line|
    requires forall k :: 0 <= k < |rows| ==> rows[k].pos < |line|
    ensures Won(line, Picks(line, rows + [u], free, cap), pos)
         == if u.pos == pos && line[pos].revealedAt.None? && u.urank <= free then Some(true)
            else if u.pos == pos && line[pos].revealedAt.None? && u.urank <= free + cap && line[pos].arrivingNotifiedAt.None? then Some(false)
            else Won(line, Picks(line, rows, free, cap), pos)
  {
    assert (rows + [u])[..|rows|] == rows;
    var before, after := Picks(line, rows, free, cap), Picks(line, rows + [u], free, cap);
    assert after == before || after == before + [PickRow(u.pos, u.urank <= free)];
    if after != before { assert after[..|after| - 1] == before; }
  }

  lemma NoPicks(line: seq<QueueJob>, free: nat, cap: nat, pos: nat)
    requires pos < |line|
    ensures Won(line, Picks(line, [], free, cap), pos) == None
  {
  }

  lemma {:induction false} PicksDecide(line: seq<QueueJob>, n: nat, free: nat, cap: nat, pos: nat)
    requires n <= |line| && pos < |line|
    ensures PickDecides(line, Picks(line, UnRows(line, n), free, cap), pos, n, free, cap)
  {
    hide Picks, Won;
    if n == 0 {
      NoPicks(line, free, cap, pos);
    } else {
      PicksDecide(line, n - 1, free, cap, pos);
      CountsAgree(line, n - 1);
      var init := UnRows(line, n - 1);
      if line[n - 1].revealedAt.None? {
        assert UnRows(line, n) == init + [UnRow(n - 1, |init| + 1)];
        PickOne(line, init, UnRow(n - 1, |init| + 1), free, cap, pos);
      }
    }
  }

  /**
   * For every line, capacity and set of flags the pass wins exactly the jobs the loop newly marks
   * revealed, plus the un-notified ones it marks arriving.
   */
  lemma PassWinsWhatLoopSays(line: seq<QueueJob>, capacity: int, i: nat)
    requires i < |line|
    ensures var band := Bands(line, capacity)[i];
      PassWins(line, capacity)[i]
      == if line[i].revealedAt.None? && band.Revealed? then Some(true)
         else if line[i].revealedAt.None? && band.Arriving? && line[i].arrivingNotifiedAt.None? then Some(false)
         else None
  {
    FreeAgrees(line, capacity);
    PicksDecide(line, |line|, SqlFree(line, capacity), Cap(capacity), i);
    BandsByRank(BandInputs(line), FreeSlots(BandInputs(line), capacity), Cap(capacity), i);
  }

  /** A pass is needed exactly when it would win a row. */
  lemma NeedsReconcileIsExact(line: seq<QueueJob>, capacity: int)
    ensures NeedsReconcile(line, capacity) <==> exists i :: 0 <= i < |line| && PassWins(line, capacity)[i].Some?
  {
    forall i | 0 <= i < |line|
      ensures PassWins(line, capacity)[i].Some?
         <==> (line[i].revealedAt.None?
               && (Bands(line, capacity)[i].Revealed? || (Bands(line, capacity)[i].Arriving? && line[i].arrivingNotifiedAt.None?)))
    {
      PassWinsWhatLoopSays(line, capacity, i);
    }
    if exists i :: 0 <= i < |line| && PassWins(line, capacity)[i].Some? {
      var i :| 0 <= i < |line| && PassWins(line, capacity)[i].Some?;
      assert line[i].revealedAt.None?;
    }
  }

  // ---------- after a pass ----------

  /**
   * What the pass writes. A row in the revealed band that had no reveal gets one now, with the shop's grace to its deadline;
   * an un-notified row of the arriving band gets its notice; every other row and column stays.
   */
  lemma PassWrites(line: seq<QueueJob>, capacity: int, graceSeconds: int, now: int, i: nat)
    requires i < |line|
    ensures var before, after, band := line[i], RunPass(line, capacity, graceSeconds, now)[i], Bands(line, capacity)[i];
      after == (if before.revealedAt.None? && band.Revealed?
                then before.(revealedAt := Some(now), revealDeadlineAt := Some(now + 1000 * graceSeconds), updatedAt := now)
                else if before.revealedAt.None? && band.Arriving? && before.arrivingNotifiedAt.None?
                then before.(arrivingNotifiedAt := Some(now), updatedAt := now)
                else before)
  {
    hide PassWins, Bands;
    PassWinsWhatLoopSays(line, capacity, i);
  }

  /** Rows revealed by the pass are exactly those in the revealed band, so bands do not move. */
  lemma PassRevealsTheBand(line: seq<QueueJob>, capacity: int, graceSeconds: int, now: int)
    ensures var after := RunPass(line, capacity, graceSeconds, now);
      && (forall i :: 0 <= i < |line| ==>
            (after[i].revealedAt.Some? <==> Bands(line, capacity)[i].Revealed?)
            && (after[i].revealedAt.None? && Bands(line, capacity)[i].Arriving? ==> after[i].arrivingNotifiedAt.Some?)
            && (line[i].revealedAt.Some? ==> after[i] == line[i]))
  {
    var after := RunPass(line, capacity, graceSeconds, now);
    forall i | 0 <= i < |line|
      ensures after[i].revealedAt.Some? <==> Bands(line, capacity)[i].Revealed?
      ensures after[i].revealedAt.None? && Bands(line, capacity)[i].Arriving? ==> after[i].arrivingNotifiedAt.Some?
      ensures line[i].revealedAt.Some? ==> after[i] == line[i]
    {
      PassWinsWhatLoopSays(line, capacity, i);
      BandsByRank(BandInputs(line), FreeSlots(BandInputs(line), capacity), Cap(capacity), i);
    }
  }

  /** The first `free` unrevealed jobs turn revealed: what is left unrevealed ahead of a place. */
  lemma {:induction false} AheadAfterPass(before: seq<BandInput>, after: seq<BandInput>, free: nat, n: nat)
    requires |before| == |after| && n <= |before|
    requires forall i :: 0 <= i < n ==> (after[i].revealed <==> before[i].revealed || UnrevealedAhead(before, i) < free)
    ensures UnrevealedAhead(after, n)
         == if UnrevealedAhead(before, n) <= free then 0 else UnrevealedAhead(before, n) - free
  {
    hide UnrevealedAhead;
    if n == 0 {
      NobodyAhead(before);
      NobodyAhead(after);
    } else {
      AheadAfterPass(before, after, free, n - 1);
      AheadStep(before, n);
      AheadStep(after, n);
    }
  }

  lemma NobodyAhead(rows: seq<BandInput>)
    ensures UnrevealedAhead(rows, 0) == 0
  {
  }

  lemma AheadStep(rows: seq<BandInput>, n: nat)
    requires 0 < n <= |rows|
    ensures UnrevealedAhead(rows, n) == UnrevealedAhead(rows, n - 1) + if rows[n - 1].revealed then 0 else 1
  {
  }

  /** The pass fills the counter: max(r, cap) revealed if the line is long enough. */
  lemma RevealedAfterPass(line: seq<QueueJob>, capacity: int, graceSeconds: int, now: int)
    ensures var r := RevealedCount(BandInputs(line));
      var after := RevealedCount(BandInputs(RunPass(line, capacity, graceSeconds, now)));
      && after == (if r + FreeSlots(BandInputs(line), capacity) <= |line| then r + FreeSlots(BandInputs(line), capacity) else |line|)
      && r <= after <= Max(r, Cap(capacity))
      && (FreeSlots(BandInputs(RunPass(line, capacity, graceSeconds, now)), capacity) == 0 || after == |line|)
  {
    var before, after := BandInputs(line), BandInputs(RunPass(line, capacity, graceSeconds, now));
    var free := FreeSlots(before, capacity);
    RevealedMeansAhead(line, capacity, graceSeconds, now);
    AheadAfterPass(before, after, free, |line|);
    CountsSplit(before, |line|);
    CountsSplit(after, |line|);
  }

  lemma RevealedMeansAhead(line: seq<QueueJob>, capacity: int, graceSeconds: int, now: int)
    ensures var before, after := BandInputs(line), BandInputs(RunPass(line, capacity, graceSeconds, now));
      forall i :: 0 <= i < |line| ==>
        (after[i].revealed <==> before[i].revealed || UnrevealedAhead(before, i) < FreeSlots(before, capacity))
  {
    var before, after := BandInputs(line), BandInputs(RunPass(line, capacity, graceSeconds, now));
    PassRevealsTheBand(line, capacity, graceSeconds, now);
    forall i | 0 <= i < |line|
      ensures after[i].revealed <==> before[i].revealed || UnrevealedAhead(before, i) < FreeSlots(before, capacity)
    {
      BandsByRank(before, FreeSlots(before, capacity), Cap(capacity), i);
    }
  }

  /** Bands by rank stay put when the first `free` unrevealed jobs become revealed. */
  lemma RanksKeepBand(before: seq<BandInput>, after: seq<BandInput>, free: nat, afterFree: nat, cap: nat, i: nat)
    requires |before| == |after| && i < |before|
    requires forall k :: 0 <= k < |before| ==> (after[k].revealed <==> before[k].revealed || UnrevealedAhead(before, k) < free)
    requires afterFree == 0 || RevealedCount(after) == |after|
    ensures BandOfRank(after[i].revealed, UnrevealedAhead(after, i), afterFree, cap)
         == BandOfRank(before[i].revealed, UnrevealedAhead(before, i), free, cap)
  {
    AheadAfterPass(before, after, free, i);
    if RevealedCount(after) == |after| {
      CountsSplit(after, |after|);
      AheadGrows(after, i + 1, |after|);
    }
  }

  /** Bands are the same before and after the pass: it only writes down what they already said. */
  lemma PassKeepsBands(line: seq<QueueJob>, capacity: int, graceSeconds: int, now: int)
    ensures Bands(RunPass(line, capacity, graceSeconds, now), capacity) == Bands(line, capacity)
  {
    var next := RunPass(line, capacity, graceSeconds, now);
    var before, after := BandInputs(line), BandInputs(next);
    RevealedMeansAhead(line, capacity, graceSeconds, now);
    RevealedAfterPass(line, capacity, graceSeconds, now);
    forall i | 0 <= i < |line| ensures Bands(next, capacity)[i] == Bands(line, capacity)[i] {
      BandsByRank(before, FreeSlots(before, capacity), Cap(capacity), i);
      BandsByRank(after, FreeSlots(after, capacity), Cap(capacity), i);
      RanksKeepBand(before, after, FreeSlots(before, capacity), FreeSlots(after, capacity), Cap(capacity), i);
    }
  }

  /** After a pass nothing is left to reconcile, so a second pass changes nothing. */
  lemma PassIsIdempotent(line: seq<QueueJob>, capacity: int, graceSeconds: int, now: int, laterGrace: int, later: int)
    ensures var after := RunPass(line, capacity, graceSeconds, now);
      !NeedsReconcile(after, capacity) && RunPass(after, capacity, laterGrace, later) == after
  {
    var after := RunPass(line, capacity, graceSeconds, now);
    PassKeepsBands(line, capacity, graceSeconds, now);
    PassRevealsTheBand(line, capacity, graceSeconds, now);
    NeedsReconcileIsExact(after, capacity);
  }
}
