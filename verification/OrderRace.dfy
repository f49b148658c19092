/** Racing order creations on one file: read, insert and rival check interleaved without the lock. */
module OrderRace {
  import opened Options

  /** `createdAt` and `id` order rows; `active` means the status still needs the file. */
  datatype Row = Row(createdAt: int, id: int, active: bool, present: bool)

  /** How far one creation has come. */
  datatype Phase = Idle | SawNoActive | Refused | Inserted(row: nat) | Survived(row: nat) | Withdrew(row: nat)

  datatype State = State(rows: seq<Row>, creators: seq<Phase>)

  datatype Event =
    | ReadJobs(creator: nat)
    | InsertOrder(creator: nat, createdAt: int, id: int)
    | CheckRival(creator: nat)
    | LeaveActive(row: nat)

  predicate Older(a: Row, b: Row) { a.createdAt < b.createdAt || (a.createdAt == b.createdAt && a.id < b.id) }

  /** The rival query of row `j`. */
  predicate HasRival(rows: seq<Row>, j: nat)
    requires j < |rows|
  {
    exists i :: 0 <= i < |rows| && i != j && rows[i].present && rows[i].active && Older(rows[i], rows[j])
  }

  predicate AnyActive(rows: seq<Row>) { exists i :: 0 <= i < |rows| && rows[i].present && rows[i].active }

  function Step(s: State, e: Event): State {
    match e
    case ReadJobs(c) =>
      if c < |s.creators| && s.creators[c].Idle? then s.(creators := s.creators[c := if AnyActive(s.rows) then Refused else SawNoActive])
      else s
    case InsertOrder(c, at, id) =>
      if c < |s.creators| && s.creators[c].SawNoActive? then
        State(s.rows + [Row(at, id, true, true)], s.creators[c := Inserted(|s.rows|)])
      else s
    case CheckRival(c) =>
      if c < |s.creators| && s.creators[c].Inserted? && s.creators[c].row < |s.rows| then
        var j := s.creators[c].row;
        if HasRival(s.rows, j) then State(s.rows[j := s.rows[j].(present := false)], s.creators[c := Withdrew(j)])
        else s.(creators := s.creators[c := Survived(j)])
      else s
    case LeaveActive(j) =>
      if j < |s.rows| then s.(rows := s.rows[j := s.rows[j].(active := false)]) else s
  }

  function Run(n: nat, events: seq<Event>): State {
    if events == [] then State([], seq(n, i => Idle)) else Step(Run(n, events[..|events| - 1]), events[|events| - 1])
  }

  /** `createdAt` (id breaking ties) grows with the order of insertion. */
  predicate InsertedInOrder(rows: seq<Row>) { forall i, j :: 0 <= i < j < |rows| ==> Older(rows[i], rows[j]) }

  /** The row each creator holds; distinct creators hold distinct rows. */
  predicate Owned(s: State) {
    (forall c :: 0 <= c < |s.creators| && HasRow(s.creators[c]) ==> s.creators[c].row < |s.rows|)
    && (forall c, d :: 0 <= c < d < |s.creators| && HasRow(s.creators[c]) && HasRow(s.creators[d]) ==> s.creators[c].row != s.creators[d].row)
    && (forall c :: 0 <= c < |s.creators| && HasRow(s.creators[c]) ==> (s.rows[s.creators[c].row].present <==> !s.creators[c].Withdrew?))
  }

  predicate HasRow(p: Phase) { p.Inserted? || p.Survived? || p.Withdrew? }

  /** Every row older than a survivor has been withdrawn or has left the active statuses. */
  predicate SurvivorsAlone(s: State) {
    forall c, i :: 0 <= c < |s.creators| && s.creators[c].Survived? && 0 <= i < s.creators[c].row < |s.rows| ==>
                     !(s.rows[i].present && s.rows[i].active)
  }

  /** The first row belongs to nobody who withdrew. */
  predicate FirstStays(s: State) { s.rows != [] ==> s.rows[0].present }

  predicate Inv(s: State) { Owned(s) && SurvivorsAlone(s) && FirstStays(s) }

  lemma StepKeepsOwned(s: State, e: Event)
    requires Owned(s)
    ensures Owned(Step(s, e))
  {
    hide HasRival, AnyActive, Older;
    var t := Step(s, e);
    match e
    case CheckRival(c) =>
      if t != s {
        var j := s.creators[c].row;
        forall d | 0 <= d < |t.creators| && HasRow(t.creators[d])
          ensures HasRow(s.creators[d]) && t.creators[d].row == s.creators[d].row && (d != c ==> t.creators[d] == s.creators[d])
        {
        }
      }
    case InsertOrder(c, at, id) =>
      if t != s {
        forall d | 0 <= d < |t.creators| && d != c ensures t.creators[d] == s.creators[d] {
        }
      }
    case _ =>
  }

  lemma StepKeepsAlone(s: State, e: Event)
    requires Owned(s) && SurvivorsAlone(s) && InsertedInOrder(s.rows)
    ensures SurvivorsAlone(Step(s, e))
  {
    hide AnyActive, Older;
    var t := Step(s, e);
    if e.CheckRival? && t != s {
      var j := s.creators[e.creator].row;
      assert forall i :: 0 <= i < j ==> Older(s.rows[i], s.rows[j]);
    }
  }

  lemma StepKeepsFirst(s: State, e: Event)
    requires Owned(s) && FirstStays(s) && InsertedInOrder(s.rows)
    ensures FirstStays(Step(s, e))
  {
    hide AnyActive;
    if e.CheckRival? && Step(s, e) != s && s.creators[e.creator].row == 0 {
      assert forall i :: 0 < i < |s.rows| ==> Older(s.rows[0], s.rows[i]);
      assert !HasRival(s.rows, 0);
    }
  }

  lemma StepKeepsInv(s: State, e: Event)
    requires Inv(s) && InsertedInOrder(s.rows)
    ensures Inv(Step(s, e))
  {
    hide Owned, SurvivorsAlone, FirstStays;
    StepKeepsOwned(s, e);
    StepKeepsAlone(s, e);
    StepKeepsFirst(s, e);
  }

  lemma {:induction false} ReachableIsOk(n: nat, events: seq<Event>)
    requires InsertedInOrder(Run(n, events).rows)
    ensures Inv(Run(n, events))
  {
    if events != [] {
      var before := Run(n, events[..|events| - 1]);
      RowsOnlyGrow(before, events[|events| - 1]);
      ReachableIsOk(n, events[..|events| - 1]);
      StepKeepsInv(before, events[|events| - 1]);
    }
  }

  lemma RowsOnlyGrow(s: State, e: Event)
    ensures |s.rows| <= |Step(s, e).rows|
    ensures forall i :: 0 <= i < |s.rows| ==>
      Step(s, e).rows[i].createdAt == s.rows[i].createdAt && Step(s, e).rows[i].id == s.rows[i].id
    ensures InsertedInOrder(Step(s, e).rows) ==> InsertedInOrder(s.rows)
  {
  }

  // ---------- uniqueness, exactly ----------

  predicate Live(rows: seq<Row>, i: nat) { i < |rows| && rows[i].present && rows[i].active }

  predicate ActiveSurvivor(s: State, c: nat) {
    c < |s.creators| && s.creators[c].Survived? && Live(s.rows, s.creators[c].row)
  }

  predicate TwoSurvivors(s: State) {
    exists c, d :: 0 <= c < d < |s.creators| && ActiveSurvivor(s, c) && ActiveSurvivor(s, d)
  }

  /** Some active order is older than an active survivor. */
  predicate Exposed(s: State) {
    exists c, i :: 0 <= c < |s.creators| && 0 <= i < |s.rows| && ActiveSurvivor(s, c) && Live(s.rows, i)
                   && Older(s.rows[i], s.rows[s.creators[c].row])
  }

  /** An insert that takes effect with a key older than an active survivor's: a comparison the inserter could make. */
  predicate Backdates(s: State, e: Event) {
    e.InsertOrder? && e.creator < |s.creators| && s.creators[e.creator].SawNoActive?
    && exists c :: 0 <= c < |s.creators| && ActiveSurvivor(s, c) && Older(Row(e.createdAt, e.id, true, true), s.rows[s.creators[c].row])
  }

  /** `id` is the primary key, so no two rows share createdAt and id. */
  predicate DistinctKeys(rows: seq<Row>) {
    forall i, j :: 0 <= i < j < |rows| ==> rows[i].createdAt != rows[j].createdAt || rows[i].id != rows[j].id
  }

  predicate IsOwned(creators: seq<Phase>, i: nat) {
    exists c :: 0 <= c < |creators| && HasRow(creators[c]) && creators[c].row == i
  }

  predicate EveryRowOwned(s: State) {
    forall i :: 0 <= i < |s.rows| ==> IsOwned(s.creators, i)
  }

  lemma StepKeepsOwners(s: State, e: Event)
    requires Owned(s) && EveryRowOwned(s)
    ensures EveryRowOwned(Step(s, e))
  {
    hide HasRival, AnyActive, Older;
    var t := Step(s, e);
    forall i | 0 <= i < |t.rows| ensures IsOwned(t.creators, i)
    {
      if i < |s.rows| {
        assert IsOwned(s.creators, i);
        var c :| 0 <= c < |s.creators| && HasRow(s.creators[c]) && s.creators[c].row == i;
        assert HasRow(t.creators[c]) && t.creators[c].row == i;
      } else {
        assert HasRow(t.creators[e.creator]) && t.creators[e.creator].row == i;
      }
    }
  }

  lemma {:induction false} ReachableIsOwned(n: nat, events: seq<Event>)
    ensures Owned(Run(n, events)) && EveryRowOwned(Run(n, events))
  {
    if events != [] {
      ReachableIsOwned(n, events[..|events| - 1]);
      StepKeepsOwned(Run(n, events[..|events| - 1]), events[|events| - 1]);
      StepKeepsOwners(Run(n, events[..|events| - 1]), events[|events| - 1]);
    }
  }

  lemma ExposesOnlyByInsert(s: State, e: Event)
    requires Owned(s) && Exposed(Step(s, e)) && !e.InsertOrder?
    ensures Exposed(s)
  {
    hide AnyActive, Older;
    var t := Step(s, e);
    var c, i :| 0 <= c < |t.creators| && 0 <= i < |t.rows| && ActiveSurvivor(t, c) && Live(t.rows, i)
                && Older(t.rows[i], t.rows[t.creators[c].row]);
    var j := t.creators[c].row;
    SameAge(s, e, i);
    SameAge(s, e, j);
    assert Live(s.rows, i) && Live(s.rows, j);
    if e.CheckRival? && e.creator == c && s.creators[c].Inserted? { NewSurvivorIsOldest(s, c, i); }
    assert ActiveSurvivor(s, c);
  }

  lemma NewSurvivorIsOldest(s: State, c: nat, i: nat)
    requires c < |s.creators| && s.creators[c].Inserted? && s.creators[c].row < |s.rows|
    requires Step(s, CheckRival(c)).creators[c].Survived? && Live(s.rows, i)
    ensures !Older(s.rows[i], s.rows[s.creators[c].row])
  {
  }

  /** No step but an insert's own changes what rows are compared by. */
  lemma SameAge(s: State, e: Event, i: nat)
    requires i < |s.rows|
    ensures i < |Step(s, e).rows|
    ensures forall j :: 0 <= j < |s.rows| ==> (Older(Step(s, e).rows[i], Step(s, e).rows[j]) <==> Older(s.rows[i], s.rows[j]))
  {
  }

  /** From a state that is not exposed, a step exposes it exactly when it is a backdated insert. */
  lemma StepExposesIff(s: State, e: Event)
    requires Owned(s) && !Exposed(s)
    ensures Exposed(Step(s, e)) <==> Backdates(s, e)
  {
    hide AnyActive, HasRival;
    var t := Step(s, e);
    if Exposed(t) {
      if !e.InsertOrder? { ExposesOnlyByInsert(s, e); }
      InsertExposes(s, e);
    }
    if Backdates(s, e) {
      var c :| 0 <= c < |s.creators| && ActiveSurvivor(s, c) && Older(Row(e.createdAt, e.id, true, true), s.rows[s.creators[c].row]);
      assert ActiveSurvivor(t, c) && Live(t.rows, |s.rows|) && Older(t.rows[|s.rows|], t.rows[t.creators[c].row]);
    }
  }

  lemma InsertExposes(s: State, e: Event)
    requires Owned(s) && !Exposed(s) && e.InsertOrder? && Exposed(Step(s, e))
    ensures Backdates(s, e)
  {
    hide Older;
    var t := Step(s, e);
    var c, i :| 0 <= c < |t.creators| && 0 <= i < |t.rows| && ActiveSurvivor(t, c) && Live(t.rows, i)
                && Older(t.rows[i], t.rows[t.creators[c].row]);
    assert ActiveSurvivor(s, c);
    assert i == |s.rows|;
  }

  lemma TwoSurvivorsExposed(s: State)
    requires Owned(s) && DistinctKeys(s.rows) && TwoSurvivors(s)
    ensures Exposed(s)
  {
    var c, d :| 0 <= c < d < |s.creators| && ActiveSurvivor(s, c) && ActiveSurvivor(s, d);
    var i, j := s.creators[c].row, s.creators[d].row;
    assert i != j;
    assert Older(s.rows[i], s.rows[j]) || Older(s.rows[j], s.rows[i]);
  }

  lemma {:induction false} OldestLive(rows: seq<Row>, n: nat, k: nat) returns (o: nat)
    requires k < n <= |rows| && Live(rows, k)
    ensures o < n && Live(rows, o) && forall i :: 0 <= i < n && Live(rows, i) ==> !Older(rows[i], rows[o])
    decreases n
  {
    if k < n - 1 {
      o := OldestLive(rows, n - 1, k);
      if Live(rows, n - 1) && Older(rows[n - 1], rows[o]) { o := n - 1; }
    } else if j :| 0 <= j < n - 1 && Live(rows, j) {
      o := OldestLive(rows, n - 1, j);
      if Older(rows[n - 1], rows[o]) { o := n - 1; }
    } else {
      o := k;
    }
  }

  /** A state is exposed exactly when two active orders have survived, or one rival check is all that is missing. */
  lemma ExposedIffTwoSurvivors(n: nat, events: seq<Event>)
    requires DistinctKeys(Run(n, events).rows)
    ensures var s := Run(n, events);
      Exposed(s) <==> TwoSurvivors(s) || exists c: nat :: TwoSurvivors(Step(s, CheckRival(c)))
  {
    hide Run;
    var s := Run(n, events);
    ReachableIsOwned(n, events);
    if Exposed(s) {
      var x := ExposedReaches(s);
    }
    if TwoSurvivors(s) { TwoSurvivorsExposed(s); }
    if c: nat :| TwoSurvivors(Step(s, CheckRival(c))) { CheckReveals(s, c); }
  }

  lemma CheckReveals(s: State, c: nat)
    requires Owned(s) && DistinctKeys(s.rows) && TwoSurvivors(Step(s, CheckRival(c)))
    ensures Exposed(s)
  {
    hide Owned, TwoSurvivors, Exposed;
    StepKeepsOwned(s, CheckRival(c));
    TwoSurvivorsExposed(Step(s, CheckRival(c)));
    ExposesOnlyByInsert(s, CheckRival(c));
  }

  lemma ExposedReaches(s: State) returns (x: nat)
    requires Owned(s) && EveryRowOwned(s) && Exposed(s)
    ensures TwoSurvivors(s) || TwoSurvivors(Step(s, CheckRival(x)))
  {
    hide AnyActive;
    var c, i :| 0 <= c < |s.creators| && 0 <= i < |s.rows| && ActiveSurvivor(s, c) && Live(s.rows, i)
                && Older(s.rows[i], s.rows[s.creators[c].row]);
    var o := OldestLive(s.rows, |s.rows|, i);
    assert IsOwned(s.creators, o);
    x :| 0 <= x < |s.creators| && HasRow(s.creators[x]) && s.creators[x].row == o;
    assert x != c;
    if s.creators[x].Survived? {
      assert ActiveSurvivor(s, x);
    } else {
      assert !HasRival(s.rows, o);
      var t := Step(s, CheckRival(x));
      assert ActiveSurvivor(t, x) && ActiveSurvivor(t, c);
    }
  }

  predicate NoBackdatedInsert(n: nat, events: seq<Event>) {
    forall k :: 0 <= k < |events| ==> !Backdates(Run(n, events[..k]), events[k])
  }

  lemma {:induction false} NeverExposed(n: nat, events: seq<Event>)
    requires NoBackdatedInsert(n, events)
    ensures !Exposed(Run(n, events))
  {
    hide Backdates;
    if events == [] {
      NobodySurvivedYet(n);
    } else {
      var front := events[..|events| - 1];
      assert forall k :: 0 <= k < |front| ==> front[..k] == events[..k] && front[k] == events[k];
      NeverExposed(n, front);
      ReachableIsOwned(n, front);
      StepExposesIff(Run(n, front), events[|events| - 1]);
    }
  }

  lemma NobodySurvivedYet(n: nat)
    ensures !Exposed(Run(n, []))
  {
  }

  /** A run is ever exposed exactly when one of its inserts is backdated below an active survivor. */
  lemma ExposedIffBackdated(n: nat, events: seq<Event>)
    ensures (exists k :: 0 <= k <= |events| && Exposed(Run(n, events[..k]))) <==> !NoBackdatedInsert(n, events)
  {
    hide Backdates, Exposed;
    if NoBackdatedInsert(n, events) {
      forall k | 0 <= k <= |events| ensures !Exposed(Run(n, events[..k])) {
        assert forall m :: 0 <= m < k ==> events[..k][..m] == events[..m] && events[..k][m] == events[m];
        NeverExposed(n, events[..k]);
      }
    } else {
      var k :| 0 <= k < |events| && Backdates(Run(n, events[..k]), events[k]);
      ReachableIsOwned(n, events[..k]);
      assert events[..k + 1] == events[..k] + [events[k]];
      RunSnoc(n, events[..k], events[k]);
      if !Exposed(Run(n, events[..k])) { StepExposesIff(Run(n, events[..k]), events[k]); }
      assert Exposed(Run(n, events[..k])) || Exposed(Run(n, events[..k + 1]));
    }
  }

  /**
   * However many creations race, at most one surviving order is active at any time, as long as no insert
   * carries an older key than an order that has already survived and is still active.
   */
  lemma {:induction false} AtMostOneActiveSurvivor(n: nat, events: seq<Event>, c: nat, d: nat)
    requires NoBackdatedInsert(n, events) && DistinctKeys(Run(n, events).rows)
    requires c < d < |Run(n, events).creators|
    ensures !(ActiveSurvivor(Run(n, events), c) && ActiveSurvivor(Run(n, events), d))
  {
    hide Run, Exposed;
    NeverExposed(n, events);
    ReachableIsOwned(n, events);
    var s := Run(n, events);
    if TwoSurvivors(s) { TwoSurvivorsExposed(s); }
  }

  /** Keys that grow with insertion are the common case: no insert is backdated. */
  lemma {:induction false} InOrderIsNotBackdated(n: nat, events: seq<Event>)
    requires InsertedInOrder(Run(n, events).rows)
    ensures NoBackdatedInsert(n, events) && DistinctKeys(Run(n, events).rows)
  {
    if events != [] {
      var front := events[..|events| - 1];
      var s, e := Run(n, front), events[|events| - 1];
      RowsOnlyGrow(s, e);
      InOrderIsNotBackdated(n, front);
      assert forall k :: 0 <= k < |front| ==> front[..k] == events[..k] && front[k] == events[k];
      InOrderStep(s, e);
      forall k | 0 <= k < |events| ensures !Backdates(Run(n, events[..k]), events[k]) {
        if k < |front| { assert !Backdates(Run(n, front[..k]), front[k]); }
      }
    }
  }

  lemma InOrderStep(s: State, e: Event)
    requires InsertedInOrder(Step(s, e).rows)
    ensures !Backdates(s, e)
  {
    var t := Step(s, e);
    assert forall i, j :: 0 <= i < j < |t.rows| ==> !Older(t.rows[j], t.rows[i]);
    if e.InsertOrder? && e.creator < |s.creators| && s.creators[e.creator].SawNoActive? {
      assert t.rows[|s.rows|] == Row(e.createdAt, e.id, true, true);
      forall i | 0 <= i < |s.rows| ensures !Older(Row(e.createdAt, e.id, true, true), s.rows[i]) {
        assert t.rows[i] == s.rows[i];
      }
    }
  }

  /**
   * The first order inserted is never withdrawn; while it stays active every other creation whose check
   * has run has withdrawn.
   */
  lemma FirstInsertedSurvives(n: nat, events: seq<Event>, c: nat)
    requires InsertedInOrder(Run(n, events).rows)
    requires c < |Run(n, events).creators| && HasRow(Run(n, events).creators[c])
    ensures var s := Run(n, events);
      && s.rows != [] && s.rows[0].present
      && (s.creators[c].row == 0 ==> !s.creators[c].Withdrew?)
      && (s.rows[0].active && s.creators[c].row != 0 ==> !s.creators[c].Survived?)
  {
    ReachableIsOk(n, events);
  }

  /**
   * What each round trip does. A first read refuses exactly when some order on the file is present and active; a rival
   * check withdraws its own row, and only it, exactly when an older order is present and active.
   */
  lemma RoundTripsDo(s: State, c: nat, createdAt: int, id: int, row: nat)
    requires c < |s.creators|
    ensures s.creators[c].Idle? ==>
      Step(s, ReadJobs(c)) == s.(creators := s.creators[c := if exists r :: r in s.rows && r.present && r.active then Refused else SawNoActive])
    ensures s.creators[c].SawNoActive? ==>
      Step(s, InsertOrder(c, createdAt, id)) == State(s.rows + [Row(createdAt, id, true, true)], s.creators[c := Inserted(|s.rows|)])
    ensures s.creators[c].Inserted? && s.creators[c].row < |s.rows| ==>
      var own := s.creators[c].row;
      var mine := s.rows[own];
      if exists r :: r in s.rows && r.present && r.active && (r.createdAt < mine.createdAt || (r.createdAt == mine.createdAt && r.id < mine.id))
      then Step(s, CheckRival(c)) == State(s.rows[own := mine.(present := false)], s.creators[c := Withdrew(own)])
      else Step(s, CheckRival(c)) == s.(creators := s.creators[c := Survived(own)])
    ensures Step(s, LeaveActive(row)) == if row < |s.rows| then s.(rows := s.rows[row := s.rows[row].(active := false)]) else s
    ensures !s.creators[c].Idle? ==> Step(s, ReadJobs(c)) == s
    ensures !s.creators[c].SawNoActive? ==> Step(s, InsertOrder(c, createdAt, id)) == s
    ensures !s.creators[c].Inserted? ==> Step(s, CheckRival(c)) == s
  {
    assert forall r :: r in s.rows <==> exists i :: 0 <= i < |s.rows| && s.rows[i] == r;
    if s.creators[c].Inserted? && s.creators[c].row < |s.rows| {
      var own := s.creators[c].row;
      if r :| r in s.rows && r.present && r.active && Older(r, s.rows[own]) {
        var i :| 0 <= i < |s.rows| && s.rows[i] == r;
        assert i != own;
      }
    }
  }

  /** Nobody withdraws in vain: an older order stays present and active, the oldest such one without a rival of its own. */
  lemma WithdrawalHasOlderRival(s: State, c: nat)
    requires c < |s.creators| && s.creators[c].Inserted? && Step(s, CheckRival(c)).creators[c].Withdrew?
    ensures var t := Step(s, CheckRival(c));
      exists o: nat :: Live(t.rows, o) && Older(t.rows[o], s.rows[s.creators[c].row]) && !HasRival(t.rows, o)
  {
    var t := Step(s, CheckRival(c));
    var j := s.creators[c].row;
    var i :| 0 <= i < |s.rows| && i != j && s.rows[i].present && s.rows[i].active && Older(s.rows[i], s.rows[j]);
    var o := OldestLive(t.rows, |t.rows|, i);
    assert Live(t.rows, o) && Older(t.rows[o], s.rows[j]) && !HasRival(t.rows, o);
  }

  function BackdatedRun(): seq<Event> {
    [ReadJobs(0), ReadJobs(1), InsertOrder(0, 5, 0), CheckRival(0), InsertOrder(1, 4, 1), CheckRival(1)]
  }

  lemma RunSnoc(n: nat, events: seq<Event>, e: Event)
    ensures Run(n, events + [e]) == Step(Run(n, events), e)
  {
    assert (events + [e])[..|events|] == events;
  }

  lemma EmptyRun()
    ensures Run(2, []) == State([], [Idle, Idle])
  {
  }

  /** A backdated insert is reachable: a second insert carrying an earlier timestamp leaves two active survivors. */
  lemma BackdatedInsertDefeatsCheck()
    ensures var s := Run(2, BackdatedRun());
      s.creators == [Survived(0), Survived(1)] && |s.rows| == 2 && s.rows[0].active && s.rows[1].active
  {
    hide Run;
    var r1 := [ReadJobs(0)];
    var r2 := r1 + [ReadJobs(1)];
    var r3 := r2 + [InsertOrder(0, 5, 0)];
    var r4 := r3 + [CheckRival(0)];
    var r5 := r4 + [InsertOrder(1, 4, 1)];
    var a, b := Row(5, 0, true, true), Row(4, 1, true, true);
    RunSnoc(2, [], ReadJobs(0));
    assert [] + r1 == r1;
    EmptyRun();
    RunSnoc(2, r1, ReadJobs(1));
    assert Run(2, r2) == State([], [SawNoActive, SawNoActive]);
    RunSnoc(2, r2, InsertOrder(0, 5, 0));
    assert Run(2, r3) == State([a], [Inserted(0), SawNoActive]);
    RunSnoc(2, r3, CheckRival(0));
    assert !HasRival([a], 0);
    assert Run(2, r4) == State([a], [Survived(0), SawNoActive]);
    RunSnoc(2, r4, InsertOrder(1, 4, 1));
    assert Run(2, r5) == State([a, b], [Survived(0), Inserted(1)]);
    RunSnoc(2, r5, CheckRival(1));
    assert !HasRival([a, b], 1);
    assert BackdatedRun() == r5 + [CheckRival(1)];
  }

  // ---------- the handler's steps in place ----------

  class OrderTable {
    var rows: seq<Row>
    var creators: seq<Phase>

    function Now(): State
      reads this
    {
      State(rows, creators)
    }

    constructor (n: nat)
      ensures Now() == Run(n, [])
    {
      rows, creators := [], seq(n, i => Idle);
      new;
      assert creators == seq(n, i => Idle);
    }

    /** The first round trip: refuse if any order on the file is active. */
    method ReadFileJobs(c: nat)
      requires c < |creators| && creators[c].Idle?
      modifies this`creators
      ensures Now() == Step(old(Now()), ReadJobs(c))
    {
      var active := false;
      for i := 0 to |rows|
        invariant active <==> exists k :: 0 <= k < i && rows[k].present && rows[k].active
      {
        if rows[i].present && rows[i].active { active := true; }
      }
      creators := creators[c := if active then Refused else SawNoActive];
    }

    /** Insert, look for an older active rival, withdraw if there is one; other handlers may run in between. */
    method CreateRow(c: nat, createdAt: int, id: int) returns (row: nat)
      requires c < |creators| && creators[c].SawNoActive?
      modifies this
      ensures Now() == Step(old(Now()), InsertOrder(c, createdAt, id)) && row == |old(rows)|
    {
      row := |rows|;
      rows := rows + [Row(createdAt, id, true, true)];
      creators := creators[c := Inserted(row)];
    }

    method WithdrawIfRival(c: nat) returns (withdrew: bool)
      requires c < |creators| && creators[c].Inserted? && creators[c].row < |rows|
      modifies this
      ensures Now() == Step(old(Now()), CheckRival(c))
      ensures withdrew == HasRival(old(rows), old(creators)[c].row)
    {
      var j := creators[c].row;
      withdrew := false;
      for i := 0 to |rows|
        invariant withdrew <==> exists k :: 0 <= k < i && k != j && rows[k].present && rows[k].active && Older(rows[k], rows[j])
        invariant rows == old(rows) && creators == old(creators)
      {
        if i != j && rows[i].present && rows[i].active && Older(rows[i], rows[j]) { withdrew := true; }
      }
      if withdrew { rows := rows[j := rows[j].(present := false)]; }
      creators := creators[c := if withdrew then Withdrew(j) else Survived(j)];
    }
  }
}
