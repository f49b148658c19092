/**
 * The per-shop single-flight of reveal passes, as steps of one event loop: a call, a pass settling,
 * the `finish` callback deleting the flight entry, a queued follow-up starting.
 */
module SingleFlight {
  import opened Options

  /** The Map entry; it is identified by the pass it was installed with. */
  datatype Flight = Flight(running: nat, next: Option<nat>)

  datatype PassInfo = PassInfo(startedAt: nat, settled: bool, finished: bool)

  /** `flight.next`: a promise that starts a pass once the running one settles. */
  datatype FollowUp = FollowUp(waitsOn: nat, pass: Option<nat>)

  datatype Answer = ThisPass(pass: nat) | NextPass(followUp: nat)

  /** A caller, when it called, and which entry was installed then. */
  datatype Call = Call(at: nat, answer: Answer, during: Option<nat>)

  datatype State = State(clock: nat, flight: Option<Flight>, passes: seq<PassInfo>, followUps: seq<FollowUp>, calls: seq<Call>)

  const Idle := State(0, None, [], [], [])

  datatype Event =
    | RevealPassCalled
    | PassSettled(pass: nat)
    | FinishRan(pass: nat)
    | FollowUpStarted(followUp: nat)

  function StartPass(s: State): State {
    s.(passes := s.passes + [PassInfo(s.clock, false, false)], flight := Some(Flight(|s.passes|, None)))
  }

  function CallRevealPass(s: State): State {
    if s.flight.None? then
      StartPass(s).(calls := s.calls + [Call(s.clock, ThisPass(|s.passes|), None)])
    else
      var entry := s.flight.value;
      var queued := if entry.next.Some? then s
                    else s.(flight := Some(Flight(entry.running, Some(|s.followUps|))),
                            followUps := s.followUps + [FollowUp(entry.running, None)]);
      queued.(calls := s.calls + [Call(s.clock, NextPass(queued.flight.value.next.value), Some(entry.running))])
  }

  /** A pass succeeds or fails: the follow-up waits for either. */
  function Settle(s: State, p: nat): State {
    if p < |s.passes| && !s.passes[p].settled then s.(passes := s.passes[p := s.passes[p].(settled := true)]) else s
  }

  function Finish(s: State, p: nat): State {
    if p < |s.passes| && s.passes[p].settled && !s.passes[p].finished then
      s.(passes := s.passes[p := s.passes[p].(finished := true)],
         flight := if s.flight.Some? && s.flight.value.running == p then None else s.flight)
    else s
  }

  function StartFollowUp(s: State, f: nat): State {
    if f < |s.followUps| && s.followUps[f].pass.None? && s.followUps[f].waitsOn < |s.passes| && s.passes[s.followUps[f].waitsOn].settled then
      StartPass(s).(followUps := s.followUps[f := s.followUps[f].(pass := Some(|s.passes|))])
    else s
  }

  function Step(s: State, e: Event): State {
    var t := match e
      case RevealPassCalled => CallRevealPass(s)
      case PassSettled(p) => Settle(s, p)
      case FinishRan(p) => Finish(s, p)
      case FollowUpStarted(f) => StartFollowUp(s, f);
    t.(clock := s.clock + 1)
  }

  function Run(s: State, events: seq<Event>): State {
    if events == [] then s else Step(Run(s, events[..|events| - 1]), events[|events| - 1])
  }

  /** The pass a caller's promise resolves to, once known. */
  function ServedBy(s: State, c: Call): Option<nat> {
    match c.answer
    case ThisPass(p) => Some(p)
    case NextPass(f) => if f < |s.followUps| then s.followUps[f].pass else None
  }

  // ---------- the invariant ----------

  predicate FlightOk(s: State) {
    s.flight.Some? ==>
      s.flight.value.running < |s.passes|
      && !s.passes[s.flight.value.running].finished
      && (s.flight.value.next.Some? ==>
            s.flight.value.next.value < |s.followUps|
            && s.followUps[s.flight.value.next.value] == FollowUp(s.flight.value.running, None))
      && forall f :: 0 <= f < |s.followUps| && s.followUps[f].waitsOn == s.flight.value.running ==>
           s.flight.value.next == Some(f)
  }

  predicate RecordsOk(s: State) {
    (forall p :: 0 <= p < |s.passes| ==> s.passes[p].startedAt < s.clock && (s.passes[p].finished ==> s.passes[p].settled))
    && (forall f :: 0 <= f < |s.followUps| ==>
          s.followUps[f].waitsOn < |s.passes| && (s.followUps[f].pass.Some? ==> s.followUps[f].pass.value < |s.passes|))
    && (forall f, g :: 0 <= f < g < |s.followUps| ==> s.followUps[f].waitsOn != s.followUps[g].waitsOn)
  }

  /** A known pass started no earlier than the call; a caller who found an entry waits for that entry's follow-up. */
  predicate CallOk(s: State, c: Call) {
    c.at < s.clock
    && (c.answer.ThisPass? ==> c.answer.pass < |s.passes| && c.during.None?)
    && (c.answer.NextPass? ==>
          c.answer.followUp < |s.followUps| && c.during == Some(s.followUps[c.answer.followUp].waitsOn))
    && var p := ServedBy(s, c);
       p.Some? ==> p.value < |s.passes| && s.passes[p.value].startedAt >= c.at
  }

  predicate Inv(s: State) {
    FlightOk(s) && RecordsOk(s) && forall k :: 0 <= k < |s.calls| ==> CallOk(s, s.calls[k])
  }

  lemma StepKeepsInv(s: State, e: Event)
    requires Inv(s)
    ensures Inv(Step(s, e))
  {
    hide Inv;
    match e {
      case RevealPassCalled => CallKeepsInv(s);
      case FollowUpStarted(f) => FollowUpKeepsInv(s, f);
      case PassSettled(p) => SettleKeepsInv(s, p);
      case FinishRan(p) => FinishKeepsInv(s, p);
    }
  }

  lemma SettleKeepsInv(s: State, p: nat)
    requires Inv(s)
    ensures Inv(Step(s, PassSettled(p)))
  {
    var t := Step(s, PassSettled(p));
    forall k | 0 <= k < |t.calls| ensures CallOk(t, t.calls[k]) { assert CallOk(s, s.calls[k]); }
  }

  lemma FinishKeepsInv(s: State, p: nat)
    requires Inv(s)
    ensures Inv(Step(s, FinishRan(p)))
  {
    var t := Step(s, FinishRan(p));
    forall k | 0 <= k < |t.calls| ensures CallOk(t, t.calls[k]) { assert CallOk(s, s.calls[k]); }
  }

  lemma CallKeepsInv(s: State)
    requires Inv(s)
    ensures Inv(Step(s, RevealPassCalled))
  {
    var t := Step(s, RevealPassCalled);
    forall k | 0 <= k < |t.calls| ensures CallOk(t, t.calls[k]) {
      if k < |s.calls| { assert CallOk(s, s.calls[k]); }
    }
  }

  lemma FollowUpKeepsInv(s: State, f: nat)
    requires Inv(s)
    ensures Inv(Step(s, FollowUpStarted(f)))
  {
    var t := Step(s, FollowUpStarted(f));
    forall k | 0 <= k < |t.calls| ensures CallOk(t, t.calls[k]) { assert CallOk(s, s.calls[k]); }
  }

  lemma {:induction false} ReachableIsOk(events: seq<Event>)
    ensures Inv(Run(Idle, events))
  {
    if events != [] {
      ReachableIsOk(events[..|events| - 1]);
      StepKeepsInv(Run(Idle, events[..|events| - 1]), events[|events| - 1]);
    }
  }

  /** Every call resolves to a pass that started at or after the call, however passes interleave or fail. */
  lemma CallsAreFresh(events: seq<Event>, k: nat)
    requires k < |Run(Idle, events).calls|
    ensures var s := Run(Idle, events);
      var p := ServedBy(s, s.calls[k]);
      p.Some? ==> p.value < |s.passes| && s.passes[p.value].startedAt >= s.calls[k].at
  {
    ReachableIsOk(events);
    assert CallOk(Run(Idle, events), Run(Idle, events).calls[k]);
  }

  /** All calls made while one entry is installed share one follow-up pass. */
  lemma BurstSharesFollowUp(events: seq<Event>, j: nat, k: nat)
    requires j < |Run(Idle, events).calls| && k < |Run(Idle, events).calls|
    requires Run(Idle, events).calls[j].during.Some?
    requires Run(Idle, events).calls[j].during == Run(Idle, events).calls[k].during
    ensures Run(Idle, events).calls[j].answer == Run(Idle, events).calls[k].answer
  {
    ReachableIsOk(events);
    var s := Run(Idle, events);
    assert CallOk(s, s.calls[j]) && CallOk(s, s.calls[k]);
  }

  /** No caller is forgotten: while some caller is unserved, its follow-up can start as soon as a pass settles. */
  lemma UnservedCallerWaits(events: seq<Event>, k: nat)
    requires k < |Run(Idle, events).calls|
    requires ServedBy(Run(Idle, events), Run(Idle, events).calls[k]).None?
    ensures var s := Run(Idle, events);
      var f := s.calls[k].answer.followUp;
      && f < |s.followUps| && s.followUps[f].waitsOn < |s.passes|
      && var settled := Step(s, PassSettled(s.followUps[f].waitsOn));
         ServedBy(Step(settled, FollowUpStarted(f)), s.calls[k]) == Some(|s.passes|)
  {
    hide Run;
    var s := Run(Idle, events);
    var c := s.calls[k];
    assert CallOk(s, c) && c.answer.followUp < |s.followUps| && s.followUps[c.answer.followUp].waitsOn < |s.passes| by {
      ReachableIsOk(events);
    }
    SettledFollowUpServes(s, c.answer.followUp);
  }

  lemma SettledFollowUpServes(s: State, f: nat)
    requires f < |s.followUps| && s.followUps[f].pass.None? && s.followUps[f].waitsOn < |s.passes|
    ensures var t := Step(Step(s, PassSettled(s.followUps[f].waitsOn)), FollowUpStarted(f));
      f < |t.followUps| && t.followUps[f].pass == Some(|s.passes|)
  {
  }

  // ---------- exclusion, exactly ----------

  /** `finish` has deleted the entry while a queued follow-up has not started yet. */
  predicate Gap(s: State) {
    s.flight.None? && exists f :: 0 <= f < |s.followUps| && s.followUps[f].pass.None?
  }

  predicate Overlap(s: State) {
    exists p, q :: 0 <= p < q < |s.passes| && !s.passes[p].settled && !s.passes[q].settled
  }

  /** No call falls into a gap. */
  predicate NoGapCall(events: seq<Event>) {
    forall k :: 0 <= k < |events| && events[k].RevealPassCalled? ==> !Gap(Run(Idle, events[..k]))
  }

  /** At most the entry's own pass runs, and at most one follow-up is pending: the entry's own, if there is an entry. */
  predicate Exclusive(s: State) {
    (forall p :: 0 <= p < |s.passes| && !s.passes[p].settled ==> s.flight.Some? && s.flight.value.running == p)
    && (forall f :: 0 <= f < |s.followUps| && s.followUps[f].pass.None? && s.flight.Some? ==> s.flight.value.next == Some(f))
    && (forall f, g :: 0 <= f < g < |s.followUps| && s.followUps[f].pass.None? ==> s.followUps[g].pass.Some?)
  }

  lemma StepKeepsExclusive(s: State, e: Event)
    requires FlightOk(s) && Exclusive(s) && (e.RevealPassCalled? ==> !Gap(s))
    ensures Exclusive(Step(s, e))
  {
  }

  lemma {:induction false} RunIsExclusive(events: seq<Event>)
    requires NoGapCall(events)
    ensures Exclusive(Run(Idle, events))
  {
    if events != [] {
      var front := events[..|events| - 1];
      assert forall k :: 0 <= k < |front| ==> front[..k] == events[..k] && front[k] == events[k];
      RunIsExclusive(front);
      ReachableIsOk(front);
      StepKeepsExclusive(Run(Idle, front), events[|events| - 1]);
    }
  }

  /** In every run without a call in a gap at most one pass is running at any time. */
  lemma {:induction false} OnePassOutsideGaps(events: seq<Event>)
    requires NoGapCall(events)
    ensures !Overlap(Run(Idle, events))
  {
    RunIsExclusive(events);
  }

  /** In every reachable gap a call, followed by the pending follow-up, leaves two passes running. */
  lemma GapCallOverlaps(events: seq<Event>, f: nat)
    requires Run(Idle, events).flight.None?
    requires f < |Run(Idle, events).followUps| && Run(Idle, events).followUps[f].pass.None?
    ensures Overlap(Run(Idle, events + [RevealPassCalled] + [FollowUpStarted(f)]))
  {
    hide Run;
    var s := Run(Idle, events);
    ReachableIsOk(events);
    RunSnoc(events, RevealPassCalled);
    RunSnoc(events + [RevealPassCalled], FollowUpStarted(f));
    var called := Step(s, RevealPassCalled);
    var t := Step(called, FollowUpStarted(f));
    var w := s.followUps[f].waitsOn;
    assert w < |s.passes| && called.passes == s.passes + [PassInfo(s.clock, false, false)];
    if s.passes[w].settled {
      assert !t.passes[|s.passes|].settled && !t.passes[|s.passes| + 1].settled;
    } else {
      assert !t.passes[w].settled && !t.passes[|s.passes|].settled;
    }
  }

  /**
   * At most one pass runs, whatever happens next, exactly until a gap opens: a run that never called in
   * a gap cannot overlap now, and it can be driven to overlap by two events exactly when it ends in one.
   */
  lemma ExclusionEndsAtGap(events: seq<Event>)
    requires NoGapCall(events)
    ensures Gap(Run(Idle, events)) <==> exists f: nat :: Overlap(Run(Idle, events + [RevealPassCalled] + [FollowUpStarted(f)]))
  {
    var s := Run(Idle, events);
    if Gap(s) {
      var f :| 0 <= f < |s.followUps| && s.followUps[f].pass.None?;
      GapCallOverlaps(events, f);
    } else {
      forall f: nat ensures !Overlap(Run(Idle, events + [RevealPassCalled] + [FollowUpStarted(f)])) {
        CallKeepsExclusive(events);
        RunSnoc(events + [RevealPassCalled], FollowUpStarted(f));
        ReachableIsOk(events + [RevealPassCalled]);
        StepKeepsExclusive(Run(Idle, events + [RevealPassCalled]), FollowUpStarted(f));
      }
    }
  }

  lemma CallKeepsExclusive(events: seq<Event>)
    requires NoGapCall(events) && !Gap(Run(Idle, events))
    ensures Exclusive(Run(Idle, events + [RevealPassCalled]))
  {
    RunIsExclusive(events);
    ReachableIsOk(events);
    RunSnoc(events, RevealPassCalled);
    StepKeepsExclusive(Run(Idle, events), RevealPassCalled);
  }

  /** A gap is reached as soon as a joined pass settles and its `finish` runs. */
  lemma PassesCanOverlap()
    ensures var gap := [RevealPassCalled, RevealPassCalled, PassSettled(0), FinishRan(0)];
      Gap(Run(Idle, gap)) && Overlap(Run(Idle, gap + [RevealPassCalled] + [FollowUpStarted(0)]))
  {
    var queued := [RevealPassCalled, RevealPassCalled];
    RunSnoc([], RevealPassCalled);
    RunSnoc([RevealPassCalled], RevealPassCalled);
    assert [RevealPassCalled] + [RevealPassCalled] == queued;
    RunSnoc(queued, PassSettled(0));
    RunSnoc(queued + [PassSettled(0)], FinishRan(0));
    var gap := [RevealPassCalled, RevealPassCalled, PassSettled(0), FinishRan(0)];
    assert gap == queued + [PassSettled(0)] + [FinishRan(0)];
    GapCallOverlaps(gap, 0);
  }

  lemma RunSnoc(events: seq<Event>, e: Event)
    ensures Run(Idle, events + [e]) == Step(Run(Idle, events), e)
  {
    assert (events + [e])[..|events|] == events;
  }

  // ---------- the map in place ----------

  class Flights {
    var flight: Option<Flight>
    var clock: nat
    var passes: seq<PassInfo>
    var followUps: seq<FollowUp>
    var calls: seq<Call>

    function Now(): State
      reads this
    {
      State(clock, flight, passes, followUps, calls)
    }

    constructor ()
      ensures Now() == Idle
    {
      clock, flight, passes, followUps, calls := 0, None, [], [], [];
    }

    /** `startPass`: begins the locked pass and replaces the flight entry in the same turn. */
    method BeginPass() returns (pass: nat)
      modifies this`flight, this`passes
      ensures Now() == StartPass(old(Now())) && pass == |old(passes)|
    {
      pass := |passes|;
      passes := passes + [PassInfo(clock, false, false)];
      flight := Some(Flight(pass, None));
    }

    /** `revealPass`: start a pass, or join the one follow-up queued behind the running pass. */
    method RevealPass() returns (answer: Answer)
      requires FlightOk(Now())
      modifies this
      ensures Now() == Step(old(Now()), RevealPassCalled)
      ensures answer == calls[|old(calls)|].answer
      ensures answer.NextPass? ==> followUps[answer.followUp].pass.None?
    {
      ghost var before := Now();
      var during: Option<nat> := None;
      if flight.None? {
        var pass := BeginPass();
        answer := ThisPass(pass);
      } else {
        var entry := flight.value;
        during := Some(entry.running);
        if entry.next.None? {
          flight := Some(Flight(entry.running, Some(|followUps|)));
          followUps := followUps + [FollowUp(entry.running, None)];
        }
        answer := NextPass(flight.value.next.value);
      }
      calls := calls + [Call(clock, answer, during)];
      clock := clock + 1;
    }

    method OnSettled(pass: nat)
      requires pass < |passes| && !passes[pass].settled
      modifies this
      ensures Now() == Step(old(Now()), PassSettled(pass))
    {
      passes := passes[pass := passes[pass].(settled := true)];
      clock := clock + 1;
    }

    /** The `finish` callback: delete the entry only if it is still this pass's own. */
    method OnFinish(pass: nat)
      requires pass < |passes| && passes[pass].settled && !passes[pass].finished
      modifies this
      ensures Now() == Step(old(Now()), FinishRan(pass))
    {
      if flight.Some? && flight.value.running == pass { flight := None; }
      passes := passes[pass := passes[pass].(finished := true)];
      clock := clock + 1;
    }

    method OnFollowUp(followUp: nat)
      requires followUp < |followUps| && followUps[followUp].pass.None?
      requires followUps[followUp].waitsOn < |passes| && passes[followUps[followUp].waitsOn].settled
      modifies this
      ensures Now() == Step(old(Now()), FollowUpStarted(followUp))
    {
      var pass := BeginPass();
      followUps := followUps[followUp := followUps[followUp].(pass := Some(pass))];
      clock := clock + 1;
    }
  }
}
