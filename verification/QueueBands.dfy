/** Counter-capacity bands: who may come to the counter, who is coming up, who waits. */
module QueueBands {
  import opened Options
  import opened Numbers

  datatype Band = Revealed | Arriving | Waiting

  const COUNTER_CAPACITY_MIN := 1

  function Cap(capacity: int): (c: int)
    ensures c >= 1
  {
    if capacity < COUNTER_CAPACITY_MIN then COUNTER_CAPACITY_MIN else capacity
  }

  /** The pure positional band; positions count from 1. */
  function QueueBand(position: Option<int>, capacity: int): Option<Band> {
    if position.None? || position.value < 1 then None
    else if position.value <= Cap(capacity) then Some(Revealed)
    else if position.value <= Cap(capacity) * 2 then Some(Arriving)
    else Some(Waiting)
  }

  /** One job of the line; a reveal is never undone. */
  datatype BandInput = BandInput(id: string, revealed: bool)

  function RevealedCount(line: seq<BandInput>): (r: nat)
    ensures r <= |line|
  {
    if line == [] then 0 else RevealedCount(line[..|line| - 1]) + (if line[|line| - 1].revealed then 1 else 0)
  }

  /** Unrevealed jobs ahead of a place. */
  function UnrevealedAhead(line: seq<BandInput>, i: nat): nat
    requires i <= |line|
  {
    if i == 0 then 0 else UnrevealedAhead(line, i - 1) + (if line[i - 1].revealed then 0 else 1)
  }

  function FreeSlots(line: seq<BandInput>, capacity: int): nat {
    if Cap(capacity) <= RevealedCount(line) then 0 else Cap(capacity) - RevealedCount(line)
  }

  /** Hand out the free slots, then the coming-up places, in line order. */
  function BandsFrom(line: seq<BandInput>, free: nat, arriving: nat): (r: seq<Band>)
    ensures |r| == |line|
  {
    if line == [] then []
    else if line[0].revealed then [Revealed] + BandsFrom(line[1..], free, arriving)
    else if free > 0 then [Revealed] + BandsFrom(line[1..], free - 1, arriving)
    else if arriving > 0 then [Arriving] + BandsFrom(line[1..], free, arriving - 1)
    else [Waiting] + BandsFrom(line[1..], free, arriving)
  }

  function AssignBands(line: seq<BandInput>, capacity: int): (r: seq<Band>)
    ensures |r| == |line|
  {
    BandsFrom(line, FreeSlots(line, capacity), Cap(capacity))
  }

  /** The Map after its first k writes; a repeated id is overwritten. */
  function BandMap(line: seq<BandInput>, bands: seq<Band>, k: nat): map<string, Band>
    requires k <= |line| == |bands|
  {
    if k == 0 then map[] else BandMap(line, bands, k - 1)[line[k - 1].id := bands[k - 1]]
  }

  /** Looking an id up gives the band of its last place among the first k. */
  lemma {:induction false} BandMapLookup(line: seq<BandInput>, bands: seq<Band>, k: nat, i: nat)
    requires i < k <= |line| == |bands|
    requires forall j :: i < j < k ==> line[j].id != line[i].id
    ensures line[i].id in BandMap(line, bands, k) && BandMap(line, bands, k)[line[i].id] == bands[i]
  {
    if i < k - 1 { BandMapLookup(line, bands, k - 1, i); }
  }

  /** `assignBands`: one pass handing out the free and the coming-up places. */
  method AssignBandMap(line: seq<BandInput>, capacity: int) returns (out: map<string, Band>)
    ensures out == BandMap(line, AssignBands(line, capacity), |line|)
  {
    out := map[];
    var free, arriving := FreeSlots(line, capacity), Cap(capacity);
    ghost var bands := AssignBands(line, capacity);
    for k := 0 to |line|
      invariant free >= 0 && arriving >= 0 && BandsFrom(line[k..], free, arriving) == bands[k..]
      invariant out == BandMap(line, bands, k)
    {
      var item := line[k];
      assert line[k..][0] == item && line[k..][1..] == line[k + 1..];
      assert bands[k] == bands[k..][0] && bands[k..][1..] == bands[k + 1..];
      if item.revealed {
        out := out[item.id := Revealed];
      } else if free > 0 {
        free := free - 1;
        out := out[item.id := Revealed];
      } else if arriving > 0 {
        arriving := arriving - 1;
        out := out[item.id := Arriving];
      } else {
        out := out[item.id := Waiting];
      }
    }
  }

  /** The loop's band in closed form: only the number of unrevealed jobs ahead matters. */
  function BandOfRank(revealed: bool, ahead: nat, free: nat, arriving: nat): Band {
    if revealed || ahead < free then Revealed else if ahead < free + arriving then Arriving else Waiting
  }

  lemma {:induction false} AheadInTail(line: seq<BandInput>, i: nat)
    requires 1 <= i <= |line|
    ensures UnrevealedAhead(line, i) == UnrevealedAhead(line[1..], i - 1) + (if line[0].revealed then 0 else 1)
  {
    if i > 1 { AheadInTail(line, i - 1); }
  }

  lemma {:induction false} BandsByRank(line: seq<BandInput>, free: nat, arriving: nat, i: nat)
    requires i < |line|
    ensures BandsFrom(line, free, arriving)[i] == BandOfRank(line[i].revealed, UnrevealedAhead(line, i), free, arriving)
    decreases |line|
  {
    if i > 0 {
      AheadInTail(line, i);
      BandsByRank(line[1..], if !line[0].revealed && free > 0 then free - 1 else free,
                  if !line[0].revealed && free == 0 && arriving > 0 then arriving - 1 else arriving, i - 1);
    }
  }

  /** Revealed jobs stand at the front of the line. */
  predicate RevealedFirst(line: seq<BandInput>) {
    forall i, j :: 0 <= i < j < |line| && line[j].revealed ==> line[i].revealed
  }

  lemma {:induction false} CountsSplit(line: seq<BandInput>, i: nat)
    requires i <= |line|
    ensures RevealedCount(line[..i]) + UnrevealedAhead(line, i) == i
    ensures UnrevealedAhead(line, i) + RevealedCount(line) <= |line|
    ensures UnrevealedAhead(line, |line|) == |line| - RevealedCount(line)
  {
    AllCounted(line, i);
    AllCounted(line, |line|);
    assert line[..|line|] == line;
    AheadGrows(line, i, |line|);
  }

  lemma {:induction false} AllCounted(line: seq<BandInput>, i: nat)
    requires i <= |line|
    ensures RevealedCount(line[..i]) + UnrevealedAhead(line, i) == i
  {
    if i > 0 {
      assert line[..i][..i - 1] == line[..i - 1];
      AllCounted(line, i - 1);
    }
  }

  lemma {:induction false} AheadGrows(line: seq<BandInput>, i: nat, j: nat)
    requires i <= j <= |line|
    ensures UnrevealedAhead(line, i) <= UnrevealedAhead(line, j)
  {
    if i < j { AheadGrows(line, i, j - 1); }
  }

  /** With the revealed in front, a place is revealed exactly when it is among the first r. */
  lemma {:induction false} FrontCounts(line: seq<BandInput>, i: nat)
    requires RevealedFirst(line) && i <= |line|
    ensures UnrevealedAhead(line, i) == if i <= RevealedCount(line) then 0 else i - RevealedCount(line)
    ensures i < |line| ==> (line[i].revealed <==> i < RevealedCount(line))
  {
    if line != [] {
      var n := |line| - 1;
      var init := line[..n];
      FrontCounts(init, if i <= n then i else n);
      SameAhead(line, n, if i <= n then i else n);
      if line[n].revealed {
        assert forall k :: 0 <= k < n ==> init[k].revealed;
        AllRevealed(init);
      }
    }
  }

  lemma {:induction false} AllRevealed(line: seq<BandInput>)
    requires forall k :: 0 <= k < |line| ==> line[k].revealed
    ensures RevealedCount(line) == |line|
  {
    if line != [] { AllRevealed(line[..|line| - 1]); }
  }

  lemma {:induction false} SameAhead(line: seq<BandInput>, n: nat, i: nat)
    requires i <= n <= |line|
    ensures UnrevealedAhead(line[..n], i) == UnrevealedAhead(line, i)
  {
    if i > 0 { SameAhead(line, n, i - 1); }
  }

  /** With the revealed in front, bands are positional: max(r, cap) revealed, then cap arriving. */
  lemma {:induction false} BandsArePositional(line: seq<BandInput>, capacity: int, i: nat)
    requires RevealedFirst(line) && i < |line|
    ensures var r, cap := RevealedCount(line), Cap(capacity);
      AssignBands(line, capacity)[i]
      == if i < Max(r, cap) then Revealed else if i < Max(r, cap) + cap then Arriving else Waiting
  {
    BandsByRank(line, FreeSlots(line, capacity), Cap(capacity), i);
    FrontCounts(line, i);
  }

  /** The sticky bands are the pure positional ones exactly when no more jobs are revealed than the capacity. */
  lemma {:induction false} BandsAreQueueBands(line: seq<BandInput>, capacity: int)
    requires RevealedFirst(line)
    ensures (forall i :: 0 <= i < |line| ==> QueueBand(Some(i + 1), capacity) == Some(AssignBands(line, capacity)[i]))
            <==> RevealedCount(line) <= Cap(capacity)
  {
    forall i | 0 <= i < |line|
      ensures RevealedCount(line) <= Cap(capacity) ==> QueueBand(Some(i + 1), capacity) == Some(AssignBands(line, capacity)[i])
    {
      BandsArePositional(line, capacity, i);
    }
    if RevealedCount(line) > Cap(capacity) {
      CountsSplit(line, |line|);
      var i := Cap(capacity);
      BandsArePositional(line, capacity, i);
      assert QueueBand(Some(i + 1), capacity) != Some(AssignBands(line, capacity)[i]);
    }
  }

  lemma {:induction false} AheadPast(line: seq<BandInput>, n: nat, i: nat)
    requires n <= i <= |line| && forall k :: n <= k < i ==> !line[k].revealed
    ensures UnrevealedAhead(line, i) == UnrevealedAhead(line, n) + i - n
  {
    if n < i { AheadPast(line, n, i - 1); }
  }

  /** As long as nobody behind the counter's capacity is revealed, bands are the positional ones, whoever in front is. */
  lemma FrontBandsArePositional(line: seq<BandInput>, capacity: int, i: nat)
    requires i < |line| && forall k :: Cap(capacity) <= k < |line| ==> !line[k].revealed
    ensures QueueBand(Some(i + 1), capacity) == Some(AssignBands(line, capacity)[i])
  {
    var n := if Cap(capacity) <= |line| then Cap(capacity) else |line|;
    BandsByRank(line, FreeSlots(line, capacity), Cap(capacity), i);
    CountsSplit(line, |line|);
    AheadPast(line, n, |line|);
    if i < n { AheadGrows(line, i + 1, n); } else { AheadPast(line, n, i); }
  }
}
