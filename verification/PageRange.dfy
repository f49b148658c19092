/** Page ranges such as "1-5,8": the parser and the canonical printer. */
module PageRange {
  import opened Options
  import opened Numbers
  import opened Text

  datatype Span = Span(lo: nat, hi: nat)

  datatype Parsed = Pages(pages: seq<nat>) | Malformed | Outside

  // ---------- the parser ----------

  /** One comma-separated part: "8" or "1-5", spaces around it. */
  function SpanOf(part: string): Option<Span> {
    var ends := Split(Trim(part), '-');
    if |ends| == 1 && IsNumeral(ends[0]) then Some(Span(Number(ends[0]), Number(ends[0])))
    else if |ends| == 2 && IsNumeral(ends[0]) && IsNumeral(ends[1]) then Some(Span(Number(ends[0]), Number(ends[1])))
    else None
  }

  predicate WellFormed(text: string) {
    forall i :: 0 <= i < |Split(text, ',')| ==> SpanOf(Split(text, ',')[i]).Some?
  }

  function SpansOf(parts: seq<string>): seq<Span>
    requires forall i :: 0 <= i < |parts| ==> SpanOf(parts[i]).Some?
  {
    seq(|parts|, i requires 0 <= i < |parts| => SpanOf(parts[i]).value)
  }

  predicate Fits(s: Span, totalPages: int) { 1 <= s.lo <= s.hi <= totalPages }

  function Interval(lo: nat, hi: nat): (r: set<nat>)
    ensures forall p :: p in r <==> lo <= p <= hi
    decreases hi
  {
    if lo > hi then {} else if hi == 0 then {0} else Interval(lo, hi - 1) + {hi}
  }

  function PagesOf(spans: seq<Span>): set<nat> {
    if spans == [] then {}
    else PagesOf(spans[..|spans| - 1]) + Interval(spans[|spans| - 1].lo, spans[|spans| - 1].hi)
  }

  predicate Covered(p: nat, spans: seq<Span>) { exists i :: 0 <= i < |spans| && spans[i].lo <= p <= spans[i].hi }

  predicate Ascending(pages: seq<nat>) { forall i, j :: 0 <= i < j < |pages| ==> pages[i] < pages[j] }

  lemma {:induction false} HasMinimum(pages: set<nat>, n: nat)
    requires n in pages
    ensures exists m :: m in pages && forall p :: p in pages ==> m <= p
    decreases n
  {
    if q :| q in pages && q < n {
      HasMinimum(pages, q);
    } else {
      assert n in pages && forall p :: p in pages ==> n <= p;
    }
  }

  function Minimum(pages: set<nat>): (m: nat)
    requires pages != {}
    ensures m in pages && forall p :: p in pages ==> m <= p
  {
    assert exists m :: m in pages && forall p :: p in pages ==> m <= p by {
      var some :| some in pages;
      HasMinimum(pages, some);
    }
    var m :| m in pages && forall p :: p in pages ==> m <= p;
    m
  }

  /** The library sort of a set's elements. */
  function Sorted(pages: set<nat>): (r: seq<nat>)
    ensures Ascending(r) && |r| == |pages|
    ensures forall p :: p in r <==> p in pages
  {
    if pages == {} then [] else [Minimum(pages)] + Sorted(pages - {Minimum(pages)})
  }

  function Parse(range: string, totalPages: int): Parsed {
    if !WellFormed(Trim(range)) then Malformed
    else
      var spans := SpansOf(Split(Trim(range), ','));
      if exists i :: 0 <= i < |spans| && !Fits(spans[i], totalPages) then Outside
      else Pages(Sorted(PagesOf(spans)))
  }

  // ---------- what a parse means ----------

  lemma {:induction false} PagesOfIsCovered(spans: seq<Span>, p: nat)
    ensures p in PagesOf(spans) <==> Covered(p, spans)
  {
    if spans != [] {
      var front := spans[..|spans| - 1];
      PagesOfIsCovered(front, p);
      if Covered(p, front) {
        var i :| 0 <= i < |front| && front[i].lo <= p <= front[i].hi;
        assert spans[i].lo <= p <= spans[i].hi;
      }
      if Covered(p, spans) {
        var i :| 0 <= i < |spans| && spans[i].lo <= p <= spans[i].hi;
        if i < |front| { assert front[i].lo <= p <= front[i].hi; }
      }
    }
  }

  lemma {:induction false} SubsetSize(a: set<nat>, n: nat)
    requires forall p :: p in a ==> 1 <= p <= n
    ensures |a| <= n
  {
    if n == 0 {
      assert forall p :: p !in a;
    } else {
      SubsetSize(a - {n}, n - 1);
      if n in a { assert |a - {n}| == |a| - 1; } else { assert a - {n} == a; }
    }
  }

  /** A parse lists, in strictly increasing order, exactly the pages some part covers: between 1 and `totalPages` of them. */
  lemma {:induction false} ParseMeansCovered(range: string, totalPages: int)
    requires Parse(range, totalPages).Pages?
    ensures var pages := Parse(range, totalPages).pages;
      && Ascending(pages)
      && (forall p: nat :: p in pages <==> Covered(p, SpansOf(Split(Trim(range), ','))))
      && (forall p :: p in pages ==> 1 <= p <= totalPages)
      && 1 <= |pages| <= totalPages
  {
    hide Split, Trim, SpanOf, PagesOf;
    var spans := SpansOf(Split(Trim(range), ','));
    var pages := Parse(range, totalPages).pages;
    forall p: nat ensures p in pages <==> Covered(p, spans) { PagesOfIsCovered(spans, p); }
    assert Fits(spans[0], totalPages);
    assert Covered(spans[0].lo, spans);
    assert spans[0].lo in pages;
    SubsetSize(PagesOf(spans), totalPages);
  }

  // ---------- the regular expression of the format test ----------

  datatype Class = Digit | Space | Only(c: char)
  datatype Regex = One(cls: Class) | Then(first: Regex, second: Regex) | Opt(body: Regex) | Star(body: Regex)

  predicate InClass(cls: Class, c: char) {
    match cls
    case Digit => IsDigit(c)
    case Space => IsSpace(c)
    case Only(x) => c == x
  }

  /** The language of a regular expression. */
  ghost predicate Accepts(r: Regex, s: string)
    decreases r, |s|
  {
    match r
    case One(cls) => |s| == 1 && InClass(cls, s[0])
    case Then(a, b) => exists i :: 0 <= i <= |s| && Accepts(a, s[..i]) && Accepts(b, s[i..])
    case Opt(a) => s == [] || Accepts(a, s)
    case Star(a) => s == [] || exists i :: 0 < i <= |s| && Accepts(a, s[..i]) && Accepts(r, s[i..])
  }

  const SPACES := Star(One(Space))
  const NUMERAL := Then(One(Digit), Star(One(Digit)))
  const ITEM := Then(NUMERAL, Opt(Then(One(Only('-')), NUMERAL)))
  const NEXT := Then(SPACES, Then(One(Only(',')), Then(SPACES, ITEM)))
  /** `\d+(-\d+)?(\s*,\s*\d+(-\d+)?)*`, anchored at both ends. */
  const FORMAT := Then(ITEM, Star(NEXT))

  lemma {:induction false} StarOfClass(cls: Class, s: string)
    ensures Accepts(Star(One(cls)), s) <==> forall i :: 0 <= i < |s| ==> InClass(cls, s[i])
  {
    if s != [] {
      StarOfClass(cls, s[1..]);
      assert |s[..1]| == 1 && s[..1][0] == s[0];
      if forall i :: 0 <= i < |s| ==> InClass(cls, s[i]) {
        assert Accepts(One(cls), s[..1]) && Accepts(Star(One(cls)), s[1..]);
      }
      if Accepts(Star(One(cls)), s) {
        var i :| 0 < i <= |s| && Accepts(One(cls), s[..i]) && Accepts(Star(One(cls)), s[i..]);
        assert i == 1;
      }
    }
  }

  lemma SpacesAre(s: string)
    ensures Accepts(SPACES, s) <==> AllSpace(s)
  {
    StarOfClass(Space, s);
  }

  lemma NumeralsAre(s: string)
    ensures Accepts(NUMERAL, s) <==> IsNumeral(s)
  {
    if s != [] { StarOfClass(Digit, s[1..]); }
    if IsNumeral(s) {
      assert Accepts(One(Digit), s[..1]) && Accepts(Star(One(Digit)), s[1..]);
    }
    if Accepts(NUMERAL, s) {
      var i :| 0 <= i <= |s| && Accepts(One(Digit), s[..i]) && Accepts(Star(One(Digit)), s[i..]);
      assert i == 1;
      assert s == s[..1] + s[1..];
    }
  }

  lemma Concatenates(a: Regex, b: Regex, s: string, t: string)
    requires Accepts(a, s) && Accepts(b, t)
    ensures Accepts(Then(a, b), s + t)
  {
    assert (s + t)[..|s|] == s && (s + t)[|s|..] == t;
  }

  lemma ThenSplits(a: Regex, b: Regex, s: string) returns (i: nat)
    requires Accepts(Then(a, b), s)
    ensures i <= |s| && Accepts(a, s[..i]) && Accepts(b, s[i..])
  {
    i :| 0 <= i <= |s| && Accepts(a, s[..i]) && Accepts(b, s[i..]);
  }

  lemma OnlyIs(c: char, s: string)
    ensures Accepts(One(Only(c)), s) <==> s == [c]
  {
  }

  lemma OptIs(a: Regex, s: string)
    ensures Accepts(Opt(a), s) <==> s == [] || Accepts(a, s)
  {
  }

  predicate IsItem(t: string) {
    IsNumeral(t) || exists i :: 0 <= i < |t| && IsNumeral(t[..i]) && t[i] == '-' && IsNumeral(t[i + 1..])
  }

  lemma ItemParts(a: string, b: string)
    requires IsNumeral(a) && IsNumeral(b)
    ensures IsItem(a + ['-'] + b)
  {
    var t := a + ['-'] + b;
    assert t[..|a|] == a && t[|a|] == '-' && t[|a| + 1..] == b;
  }

  lemma ItemCut(t: string) returns (a: string, b: string)
    requires IsItem(t) && !IsNumeral(t)
    ensures IsNumeral(a) && IsNumeral(b) && t == a + ['-'] + b
  {
    var i :| 0 <= i < |t| && IsNumeral(t[..i]) && t[i] == '-' && IsNumeral(t[i + 1..]);
    a, b := t[..i], t[i + 1..];
  }

  lemma ItemsAre(t: string)
    ensures Accepts(ITEM, t) <==> IsItem(t)
  {
    hide Accepts, IsNumeral;
    var dash := One(Only('-'));
    var dashed := Then(dash, NUMERAL);
    if Accepts(ITEM, t) {
      var i := ThenSplits(NUMERAL, Opt(dashed), t);
      NumeralsAre(t[..i]);
      OptIs(dashed, t[i..]);
      assert t == t[..i] + t[i..];
      if t[i..] != [] {
        var j := ThenSplits(dash, NUMERAL, t[i..]);
        OnlyIs('-', t[i..][..j]);
        NumeralsAre(t[i..][j..]);
        assert t[i..] == ['-'] + t[i..][j..];
        ItemParts(t[..i], t[i..][j..]);
        assert t == t[..i] + ['-'] + t[i..][j..];
      } else {
        assert t == t[..i];
      }
    }
    if IsNumeral(t) {
      NumeralsAre(t);
      OptIs(dashed, []);
      Concatenates(NUMERAL, Opt(dashed), t, []);
      assert t + [] == t;
    } else if IsItem(t) {
      var a, b := ItemCut(t);
      NumeralsAre(a);
      NumeralsAre(b);
      OnlyIs('-', ['-']);
      Concatenates(dash, NUMERAL, ['-'], b);
      OptIs(dashed, ['-'] + b);
      Concatenates(NUMERAL, Opt(dashed), a, ['-'] + b);
      assert t == a + (['-'] + b);
    }
  }

  lemma ItemIsTight(t: string)
    requires IsItem(t)
    ensures t != [] && Tight(t) && Lacks(t, ',') && Trim(t) == t
  {
    hide Trim, IsItem;
    if !IsNumeral(t) {
      var a, b := ItemCut(t);
      assert t[0] == a[0] && t[|t| - 1] == b[|b| - 1];
    }
    TrimSandwich([], t, []);
    assert [] + t + [] == t;
  }

  lemma DashSplits(a: string, b: string)
    requires IsNumeral(a) && IsNumeral(b)
    ensures Split(a + ['-'] + b, '-') == [a, b] && Split(a, '-') == [a]
  {
    SplitFirst(a, b, '-');
    SplitWhole(b, '-');
    SplitWhole(a, '-');
  }

  lemma DashJoins(t: string)
    requires |Split(t, '-')| == 2
    ensures t == Split(t, '-')[0] + ['-'] + Split(t, '-')[1]
  {
    var rest := SplitCuts(t, '-');
    var none := SplitCuts(rest, '-');
  }

  /** The parser reads a part exactly when its trimmed text is an item. */
  lemma SpanIsItem(part: string)
    ensures SpanOf(part).Some? <==> IsItem(Trim(part))
  {
    hide Split, Trim, Number, IsNumeral;
    var t := Trim(part);
    var ends := Split(t, '-');
    if IsNumeral(t) {
      DashSplits(t, t);
    } else if IsItem(t) {
      var a, b := ItemCut(t);
      DashSplits(a, b);
    }
    if |ends| == 1 {
      var rest := SplitCuts(t, '-');
    }
    if |ends| == 2 && SpanOf(part).Some? {
      DashJoins(t);
      ItemParts(ends[0], ends[1]);
    }
  }

  predicate PartsAreItems(s: string) {
    forall i :: 0 <= i < |Split(s, ',')| ==> IsItem(Trim(Split(s, ',')[i]))
  }

  lemma WellFormedIsItems(s: string)
    ensures WellFormed(s) <==> PartsAreItems(s)
  {
    forall i | 0 <= i < |Split(s, ',')| ensures SpanOf(Split(s, ',')[i]).Some? <==> IsItem(Trim(Split(s, ',')[i])) {
      SpanIsItem(Split(s, ',')[i]);
    }
  }

  lemma CommaApart(u: string, rest: string)
    requires Lacks(u, ',') && IsItem(Trim(u)) && PartsAreItems(rest)
    ensures PartsAreItems(u + [','] + rest)
  {
    SplitFirst(u, rest, ',');
  }

  lemma SpacesLackCommas(s: string)
    requires AllSpace(s)
    ensures Lacks(s, ',')
  {
    assert !IsSpace(',');
  }

  lemma LastOf(x: string, b: string)
    ensures b != [] ==> (x + b)[|x + b| - 1] == b[|b| - 1]
  {
  }

  lemma NextSplits(s: string) returns (a: string, b: string, item: string)
    requires Accepts(NEXT, s)
    ensures AllSpace(a) && AllSpace(b) && IsItem(item) && s == a + ([','] + (b + item))
  {
    hide Accepts, IsItem, AllSpace;
    var i := ThenSplits(SPACES, Then(One(Only(',')), Then(SPACES, ITEM)), s);
    var t := s[i..];
    var j := ThenSplits(One(Only(',')), Then(SPACES, ITEM), t);
    var r := t[j..];
    var k := ThenSplits(SPACES, ITEM, r);
    a, b, item := s[..i], r[..k], r[k..];
    SpacesAre(a);
    OnlyIs(',', t[..j]);
    SpacesAre(b);
    ItemsAre(item);
    Rejoins(s, i);
    Rejoins(t, j);
    Rejoins(r, k);
  }

  lemma Rejoins(s: string, i: nat)
    requires i <= |s|
    ensures s == s[..i] + s[i..]
  {
  }

  lemma NextJoins(a: string, b: string, item: string)
    requires AllSpace(a) && AllSpace(b) && IsItem(item)
    ensures Accepts(NEXT, a + ([','] + (b + item)))
  {
    hide Accepts, IsItem, AllSpace;
    SpacesAre(a);
    SpacesAre(b);
    ItemsAre(item);
    OnlyIs(',', [',']);
    Concatenates(SPACES, ITEM, b, item);
    Concatenates(One(Only(',')), Then(SPACES, ITEM), [','], b + item);
    Concatenates(SPACES, Then(One(Only(',')), Then(SPACES, ITEM)), a, [','] + (b + item));
  }

  lemma StarSplits(a: Regex, s: string) returns (i: nat)
    requires Accepts(Star(a), s) && s != []
    ensures 0 < i <= |s| && Accepts(a, s[..i]) && Accepts(Star(a), s[i..])
  {
    i :| 0 < i <= |s| && Accepts(a, s[..i]) && Accepts(Star(a), s[i..]);
  }

  lemma StarJoins(a: Regex, s: string, t: string)
    requires Accepts(a, s) && Accepts(Star(a), t) && s != []
    ensures Accepts(Star(a), s + t)
  {
    assert (s + t)[..|s|] == s && (s + t)[|s|..] == t;
  }

  lemma LastPart(a: string, item: string)
    requires AllSpace(a) && IsItem(item)
    ensures PartsAreItems(a + item)
  {
    hide IsItem;
    ItemIsTight(item);
    SpacesLackCommas(a);
    SplitWhole(a + item, ',');
    TrimSandwich(a, item, []);
    assert a + item + [] == a + item;
  }

  lemma PartThenMore(a: string, item: string, b: string, more: string)
    requires AllSpace(a) && AllSpace(b) && IsItem(item) && PartsAreItems(more)
    ensures PartsAreItems(a + item + b + [','] + more)
  {
    hide IsItem, PartsAreItems;
    ItemIsTight(item);
    SpacesLackCommas(a);
    SpacesLackCommas(b);
    TrimSandwich(a, item, b);
    CommaApart(a + item + b, more);
  }

  /** A part followed by further accepted parts is well formed. */
  lemma {:induction false} AcceptedIsWellFormed(a: string, item: string, rest: string)
    requires AllSpace(a) && IsItem(item) && Accepts(Star(NEXT), rest)
    ensures PartsAreItems(a + item + rest)
    decreases |rest|
  {
    hide IsItem, Accepts, AllSpace, PartsAreItems;
    if rest == [] {
      LastPart(a, item);
      assert a + item + rest == a + item;
    } else {
      var i := StarSplits(NEXT, rest);
      var b, c, next := NextSplits(rest[..i]);
      var more := c + next + rest[i..];
      AcceptedIsWellFormed(c, next, rest[i..]);
      PartThenMore(a, item, b, more);
      Rejoins(rest, i);
      assert a + item + rest == a + item + b + [','] + more;
    }
  }

  lemma FirstPart(s: string) returns (a: string, item: string, b: string, more: string)
    requires PartsAreItems(s)
    ensures AllSpace(a) && AllSpace(b) && IsItem(item)
    ensures s == a + item + b || (s == a + item + b + [','] + more && PartsAreItems(more))
  {
    hide IsItem;
    more := SplitCuts(s, ',');
    var parts := Split(s, ',');
    item := Trim(parts[0]);
    a, b := TrimSplits(parts[0]);
    if |parts| > 1 {
      assert forall i :: 0 <= i < |Split(more, ',')| ==> Split(more, ',')[i] == parts[i + 1];
    }
  }

  lemma NoTrailingSpace(t: string, b: string)
    requires AllSpace(b) && (t + b == [] || !IsSpace((t + b)[|t + b| - 1]))
    ensures b == []
  {
    LastOf(t, b);
  }

  /** A well-formed text without trailing space is a part followed by accepted parts. */
  lemma {:induction false} WellFormedIsAccepted(s: string) returns (a: string, item: string, rest: string)
    requires PartsAreItems(s) && (s == [] || !IsSpace(s[|s| - 1]))
    ensures AllSpace(a) && IsItem(item) && Accepts(Star(NEXT), rest) && s == a + item + rest
    decreases |s|
  {
    hide IsItem, Accepts, AllSpace, PartsAreItems, IsSpace;
    var b, y;
    a, item, b, y := FirstPart(s);
    if s == a + item + b {
      NoTrailingSpace(a + item, b);
      rest := [];
      NothingLeft();
      assert s == a + item + rest;
    } else {
      LastOf(a + item + b + [','], y);
      var c, next, more := WellFormedIsAccepted(y);
      NextJoins(b, c, next);
      var w := b + ([','] + (c + next));
      StarJoins(NEXT, w, more);
      rest := w + more;
      assert s == a + item + rest;
    }
  }

  lemma NothingLeft()
    ensures Accepts(Star(NEXT), [])
  {
  }

  lemma NoLeadingSpace(a: string, t: string)
    requires AllSpace(a) && (a + t == [] || !IsSpace((a + t)[0]))
    ensures a == []
  {
    FirstOf(a, t);
  }

  lemma FirstOf(a: string, t: string)
    ensures a != [] ==> (a + t)[0] == a[0]
  {
  }

  lemma NothingIsSpace()
    ensures AllSpace([])
  {
  }

  /** The part-wise test is the regular expression's, on every trimmed text. */
  lemma FormatIsRegex(range: string)
    ensures WellFormed(Trim(range)) <==> Accepts(FORMAT, Trim(range))
  {
    hide Trim, Split, IsItem, AllSpace, IsSpace, SpanOf, PartsAreItems;
    var s := Trim(range);
    var l, r := TrimSplits(range);
    WellFormedIsItems(s);
    if WellFormed(s) {
      var a, item, rest := WellFormedIsAccepted(s);
      ItemIsTight(item);
      NoLeadingSpace(a, item + rest);
      assert s == a + (item + rest) && s == item + rest;
      ItemsAre(item);
      Concatenates(ITEM, Star(NEXT), item, rest);
    }
    if Accepts(FORMAT, s) {
      var i :| 0 <= i <= |s| && Accepts(ITEM, s[..i]) && Accepts(Star(NEXT), s[i..]);
      ItemsAre(s[..i]);
      NothingIsSpace();
      AcceptedIsWellFormed([], s[..i], s[i..]);
      assert [] + s[..i] + s[i..] == s;
    }
  }

  // ---------- the canonical printer ----------

  /** Maximal runs of consecutive pages, in order. */
  function Runs(pages: seq<nat>): seq<Span> {
    if pages == [] then []
    else
      var front := Runs(pages[..|pages| - 1]);
      var p := pages[|pages| - 1];
      if front != [] && p == front[|front| - 1].hi + 1 then front[|front| - 1 := Span(front[|front| - 1].lo, p)]
      else front + [Span(p, p)]
  }

  function Print(s: Span): string {
    if s.lo == s.hi then Decimal(s.lo) else Decimal(s.lo) + ['-'] + Decimal(s.hi)
  }

  function PrintAll(spans: seq<Span>): seq<string> {
    seq(|spans|, i requires 0 <= i < |spans| => Print(spans[i]))
  }

  function Canonical(pages: seq<nat>): string { Join(PrintAll(Runs(pages)), ',') }

  function Normalize(range: Option<string>, totalPages: Option<int>): Option<string> {
    if range.None? || range.value == [] || Trim(range.value) == [] then None
    else
      var parsed := Parse(range.value, if totalPages.Some? then totalPages.value else MAX_SAFE_INTEGER);
      Some(if parsed.Pages? then Canonical(parsed.pages) else Trim(range.value))
  }

  function CountSelected(range: Option<string>, totalPages: int): Option<int> {
    if range.None? || range.value == [] then Some(totalPages)
    else
      var parsed := Parse(range.value, totalPages);
      if parsed.Pages? then Some(|parsed.pages|) else None
  }

  /** A single page prints without a dash, a longer run with one, between its first and its last page. */
  lemma DashIffLonger(s: Span)
    requires 0 <= s.lo <= s.hi
    ensures '-' in Print(s) <==> s.lo < s.hi
    ensures s.lo < s.hi ==> Print(s) == Decimal(s.lo) + "-" + Decimal(s.hi)
  {
    DecimalHasNoDash(s.lo);
    DecimalHasNoDash(s.hi);
  }

  lemma {:induction false} DecimalHasNoDash(n: nat)
    ensures '-' !in Decimal(n)
  {
    if n >= 10 { DecimalHasNoDash(n / 10); }
  }

  /** The count is the whole document without a range, else the number of pages the range selects, and none for a malformed one. */
  lemma CountIs(range: Option<string>, totalPages: int)
    ensures CountSelected(range, totalPages)
      == match range
         case None => Some(totalPages)
         case Some(text) =>
           if text == "" then Some(totalPages)
           else match Parse(text, totalPages) case Pages(pages) => Some(|pages|) case _ => None
  {
  }

  /** Runs are separated by at least one missing page and their union is the pages. */
  predicate Separated(runs: seq<Span>) {
    (forall i :: 0 <= i < |runs| ==> runs[i].lo <= runs[i].hi)
    && forall i, j :: 0 <= i < j < |runs| ==> runs[i].hi + 1 < runs[j].lo
  }

  lemma {:induction false} RunsAreMaximal(pages: seq<nat>)
    requires Ascending(pages)
    ensures Separated(Runs(pages))
    ensures pages != [] ==> Runs(pages) != [] && Runs(pages)[|Runs(pages)| - 1].hi == pages[|pages| - 1]
    ensures pages != [] ==> Runs(pages)[0].lo == pages[0]
    ensures forall p: nat :: p in pages <==> Covered(p, Runs(pages))
  {
    hide Covered, Separated;
    if pages == [] {
      NoRuns();
    } else {
      var front := pages[..|pages| - 1];
      var last := pages[|pages| - 1];
      RunsAreMaximal(front);
      var before, runs := Runs(front), Runs(pages);
      assert pages == front + [last];
      if before != [] { RunsEndLow(pages); }
      RunsStepSeparated(before, runs, last);
      forall p: nat ensures p in pages <==> Covered(p, runs) {
        RunsStep(before, runs, last, p);
        assert p in front <==> Covered(p, before);
      }
    }
  }

  lemma NoRuns()
    ensures Separated([]) && forall p: nat :: !Covered(p, [])
  {
  }

  lemma RunsEndLow(pages: seq<nat>)
    requires Ascending(pages) && pages != [] && Runs(pages[..|pages| - 1]) != []
    ensures pages[..|pages| - 1] != [] && pages[|pages| - 2] < pages[|pages| - 1]
  {
  }

  lemma RunsStepSeparated(before: seq<Span>, runs: seq<Span>, last: nat)
    requires Separated(before)
    requires before != [] ==> before[|before| - 1].hi < last
    requires runs == if before != [] && last == before[|before| - 1].hi + 1
                     then before[|before| - 1 := Span(before[|before| - 1].lo, last)] else before + [Span(last, last)]
    ensures Separated(runs) && runs != [] && runs[|runs| - 1].hi == last
    ensures runs[0].lo == if before == [] then last else before[0].lo
  {
  }

  lemma RunsStep(before: seq<Span>, runs: seq<Span>, last: nat, p: nat)
    requires Separated(before)
    requires before != [] ==> before[|before| - 1].hi < last
    requires runs == if before != [] && last == before[|before| - 1].hi + 1
                     then before[|before| - 1 := Span(before[|before| - 1].lo, last)] else before + [Span(last, last)]
    ensures Covered(p, runs) <==> Covered(p, before) || p == last
  {
    var n := |runs| - 1;
    if Covered(p, before) {
      var i :| 0 <= i < |before| && before[i].lo <= p <= before[i].hi;
      assert runs[i].lo <= p <= runs[i].hi;
    }
    if p == last { assert runs[n].lo <= p <= runs[n].hi; }
    if Covered(p, runs) && p != last {
      var i :| 0 <= i < |runs| && runs[i].lo <= p <= runs[i].hi;
      assert i < |before| && before[i].lo <= p <= before[i].hi;
    }
  }

  /** Only one separated list of runs covers a given set of pages: the canonical form is the only one of its shape. */
  lemma {:induction false} RunsAreUnique(a: seq<Span>, b: seq<Span>)
    requires Separated(a) && Separated(b)
    requires forall p: nat :: Covered(p, a) <==> Covered(p, b)
    ensures a == b
    decreases |a|
  {
    hide Separated, Covered;
    if a == [] || b == [] {
      EmptyRunsMeet(a, b);
    } else {
      FirstRunsMeet(a, b);
      FirstRunsMeet(b, a);
      forall p: nat ensures Covered(p, a[1..]) <==> Covered(p, b[1..]) {
        RestCovers(a, p);
        RestCovers(b, p);
      }
      RestSeparated(a);
      RestSeparated(b);
      RunsAreUnique(a[1..], b[1..]);
      assert a == [a[0]] + a[1..] && b == [b[0]] + b[1..];
    }
  }

  lemma EmptyRunsMeet(a: seq<Span>, b: seq<Span>)
    requires Separated(a) && Separated(b)
    requires forall p: nat :: Covered(p, a) <==> Covered(p, b)
    ensures a == [] <==> b == []
  {
    if a != [] { FirstCovered(a); }
    if b != [] { FirstCovered(b); }
  }

  lemma RestSeparated(a: seq<Span>)
    requires Separated(a) && a != []
    ensures Separated(a[1..])
  {
  }

  lemma FirstRunsMeet(a: seq<Span>, b: seq<Span>)
    requires Separated(a) && Separated(b) && a != [] && b != []
    requires forall p: nat :: Covered(p, a) <==> Covered(p, b)
    ensures b[0].lo <= a[0].lo
    ensures a[0].lo == b[0].lo ==> b[0].hi >= a[0].hi
  {
    assert a[0].lo <= a[0].lo <= a[0].hi;
    assert Covered(a[0].lo, b);
    if a[0].lo == b[0].lo && b[0].hi < a[0].hi {
      var gap: nat := b[0].hi + 1;
      assert a[0].lo <= gap <= a[0].hi;
      AfterFirstRun(b);
      assert false;
    }
  }

  lemma FirstCovered(runs: seq<Span>)
    requires Separated(runs) && runs != []
    ensures Covered(runs[0].lo, runs)
  {
  }

  lemma AfterFirstRun(runs: seq<Span>)
    requires Separated(runs) && runs != []
    ensures !Covered(runs[0].hi + 1, runs)
  {
    assert forall i :: 1 <= i < |runs| ==> runs[0].hi + 1 < runs[i].lo;
  }

  lemma RestCovers(a: seq<Span>, p: nat)
    requires Separated(a) && a != []
    ensures Covered(p, a[1..]) <==> Covered(p, a) && p > a[0].hi
  {
    if Covered(p, a[1..]) {
      var i :| 0 <= i < |a[1..]| && a[1..][i].lo <= p <= a[1..][i].hi;
      assert a[i + 1].lo <= p <= a[i + 1].hi;
    }
    if Covered(p, a) && p > a[0].hi {
      var i :| 0 <= i < |a| && a[i].lo <= p <= a[i].hi;
      assert a[1..][i - 1].lo <= p <= a[1..][i - 1].hi;
    }
  }

  lemma HeadIn(pages: seq<nat>)
    requires pages != []
    ensures pages[0] in pages
  {
  }

  lemma {:induction false} AscendingIsUnique(a: seq<nat>, b: seq<nat>)
    requires Ascending(a) && Ascending(b) && forall p :: p in a <==> p in b
    ensures a == b
    decreases |a|
  {
    if a == [] {
      if b != [] { HeadIn(b); }
    } else {
      assert a[0] in b;
      assert b[0] in a;
      forall p ensures p in a[1..] <==> p in b[1..] {
        assert p in a[1..] <==> p in a && p != a[0];
        assert p in b[1..] <==> p in b && p != b[0];
      }
      AscendingIsUnique(a[1..], b[1..]);
      assert a == [a[0]] + a[1..] && b == [b[0]] + b[1..];
    }
  }

  // ---------- round trips ----------

  /** Reading a printed run gives the run back. */
  lemma SpanOfPrint(s: Span)
    requires s.lo <= s.hi
    ensures SpanOf(Print(s)) == Some(s) && IsItem(Print(s))
  {
    hide Split, Trim, Number, IsNumeral, Decimal, IsItem;
    var lo, hi := Decimal(s.lo), Decimal(s.hi);
    NumberOfDecimal(s.lo);
    NumberOfDecimal(s.hi);
    NumeralIsItem(lo);
    ItemParts(lo, hi);
    ItemIsTight(Print(s));
    DashSplits(lo, hi);
  }

  lemma NumeralIsItem(t: string)
    requires IsNumeral(t)
    ensures IsItem(t)
  {
  }

  /** Parsing printed runs gives exactly those runs. */
  lemma ParsePrinted(runs: seq<Span>)
    requires runs != [] && Separated(runs)
    ensures var text := Join(PrintAll(runs), ',');
      && text != [] && Trim(text) == text && WellFormed(text)
      && SpansOf(Split(text, ',')) == runs
  {
    hide SpanOf, IsItem, Print, Trim, Split, Join, IsSpace;
    var parts := PrintAll(runs);
    forall i | 0 <= i < |parts| ensures SpanOf(parts[i]) == Some(runs[i]) && IsItem(parts[i]) && Lacks(parts[i], ',') && parts[i] != [] && Tight(parts[i]) {
      SpanOfPrint(runs[i]);
      ItemIsTight(parts[i]);
    }
    SplitJoin(parts, ',');
    JoinEnds(parts, ',');
    var text := Join(parts, ',');
    TrimSandwich([], text, []);
    assert [] + text + [] == text;
  }

  /** The printer is a right inverse of the parser: every non-empty choice of pages prints to a range that parses to it. */
  lemma CanonicalParses(pages: seq<nat>, totalPages: int)
    requires Ascending(pages) && pages != [] && forall p :: p in pages ==> 1 <= p <= totalPages
    ensures Canonical(pages) != [] && Trim(Canonical(pages)) == Canonical(pages)
    ensures Parse(Canonical(pages), totalPages) == Pages(pages)
  {
    hide SpanOf, IsItem;
    RunsAreMaximal(pages);
    var runs := Runs(pages);
    ParsePrinted(runs);
    forall i | 0 <= i < |runs| ensures Fits(runs[i], totalPages) {
      assert Covered(runs[i].lo, runs) && Covered(runs[i].hi, runs);
    }
    forall p: nat ensures p in Sorted(PagesOf(runs)) <==> p in pages { PagesOfIsCovered(runs, p); }
    AscendingIsUnique(Sorted(PagesOf(runs)), pages);
  }

  /** When a range parses, its normal form parses to the same pages. */
  lemma {:induction false} NormalFormRoundTrips(range: string, totalPages: int)
    requires Parse(range, totalPages).Pages?
    ensures Normalize(Some(range), Some(totalPages)).Some?
    ensures Parse(Normalize(Some(range), Some(totalPages)).value, totalPages) == Parse(range, totalPages)
    ensures var normal := Normalize(Some(range), Some(totalPages)).value;
      normal != [] && Trim(normal) == normal
  {
    ParseMeansCovered(range, totalPages);
    NotBlank(range, totalPages);
    CanonicalParses(Parse(range, totalPages).pages, totalPages);
  }

  /** A larger page count, or none, never changes what a parsed range selects. */
  lemma {:induction false} PageCountOnlyBounds(range: string, totalPages: int, larger: int)
    requires Parse(range, totalPages).Pages? && totalPages <= larger
    ensures Parse(range, larger) == Parse(range, totalPages)
  {
  }

  /** Normalising twice is normalising once: parsed ranges, the trimmed fallback and null alike. */
  lemma {:induction false} NormalizeIsIdempotent(range: Option<string>, totalPages: Option<int>)
    ensures Normalize(Normalize(range, totalPages), totalPages) == Normalize(range, totalPages)
  {
    if Normalize(range, totalPages).Some? {
      var total := if totalPages.Some? then totalPages.value else MAX_SAFE_INTEGER;
      TrimIdempotent(range.value);
      if Parse(range.value, total).Pages? {
        ParseMeansCovered(range.value, total);
        CanonicalParses(Parse(range.value, total).pages, total);
      }
    }
  }

  /** Two ranges have the same normal form exactly when they select the same pages. */
  lemma {:induction false} NormalFormIsCanonical(a: string, b: string, totalPages: int)
    requires Parse(a, totalPages).Pages? && Parse(b, totalPages).Pages?
    ensures Normalize(Some(a), Some(totalPages)) == Normalize(Some(b), Some(totalPages))
      <==> (forall p: nat :: p in Parse(a, totalPages).pages <==> p in Parse(b, totalPages).pages)
  {
    NotBlank(a, totalPages);
    NotBlank(b, totalPages);
    NormalFormRoundTrips(a, totalPages);
    NormalFormRoundTrips(b, totalPages);
    ParseMeansCovered(a, totalPages);
    ParseMeansCovered(b, totalPages);
    if forall p: nat :: p in Parse(a, totalPages).pages <==> p in Parse(b, totalPages).pages {
      AscendingIsUnique(Parse(a, totalPages).pages, Parse(b, totalPages).pages);
    }
  }

  lemma NotBlank(range: string, totalPages: int)
    requires Parse(range, totalPages).Pages?
    ensures range != [] && Trim(range) != []
  {
    BlankIsMalformed();
  }

  lemma BlankIsMalformed()
    ensures !WellFormed([])
  {
    var none: string := [];
    SplitWhole(none, ',');
    SplitWhole(none, '-');
    TrimSandwich(none, none, none);
    assert none + none + none == none;
    assert SpanOf(Split(none, ',')[0]).None?;
  }

  /**
   * The count and the display agree on every range but one kind: a non-empty blank range counts as
   * malformed while it displays as "all pages".
   */
  lemma CountAgreesWithDisplay(range: Option<string>, totalPages: int)
    requires 1 <= totalPages
    ensures var count := CountSelected(range, totalPages);
      && (count.Some? ==> 1 <= count.value <= totalPages)
      && (Normalize(range, Some(totalPages)).None? && count.None? <==> range.Some? && range.value != [] && Trim(range.value) == [])
  {
    if range.Some? && range.value != [] {
      if Parse(range.value, totalPages).Pages? {
        ParseMeansCovered(range.value, totalPages);
        NotBlank(range.value, totalPages);
      }
    }
  }

  // ---------- the code in its own form ----------

  lemma NumeralsAreDigits(s: string)
    ensures IsNumeral(s) ==> AllDigits(s)
  {
  }

  method ParsePageRange(range: string, totalPages: int) returns (r: Parsed)
    ensures r == Parse(range, totalPages)
  {
    hide Trim, Split, IsNumeral, Number, Sorted, Interval;
    var trimmed := Trim(range);
    if !WellFormed(trimmed) { return Malformed; }
    var parts := Split(trimmed, ',');
    ghost var spans := SpansOf(parts);
    var pages: set<nat> := {};
    for i := 0 to |parts|
      invariant forall k :: 0 <= k < i ==> Fits(spans[k], totalPages)
      invariant pages == PagesOf(spans[..i])
    {
      var ends := Split(Trim(parts[i]), '-');
      assert SpanOf(parts[i]).Some? && spans[i] == SpanOf(parts[i]).value;
      assert AllDigits(ends[0]) && (|ends| > 1 ==> AllDigits(ends[1])) by {
        NumeralsAreDigits(ends[0]);
        if |ends| > 1 { NumeralsAreDigits(ends[1]); }
      }
      var start := Number(ends[0]);
      var end := if |ends| > 1 then Number(ends[1]) else start;
      if start < 1 || end > totalPages || start > end {
        assert !Fits(spans[i], totalPages);
        return Outside;
      }
      ghost var before := pages;
      for p: int := start to end + 1
        invariant forall q :: q in pages <==> q in before || start <= q < p
      {
        pages := pages + {p};
      }
      assert spans[..i + 1][..i] == spans[..i];
      assert pages == before + Interval(start, end);
    }
    assert spans[..|parts|] == spans;
    r := Pages(Sorted(pages));
  }

  lemma FirstRun(pages: seq<nat>)
    requires pages != []
    ensures Runs(pages[..1]) == [Span(pages[0], pages[0])]
  {
    assert pages[..1][..0] == [];
  }

  lemma RunsGrow(pages: seq<nat>, i: nat)
    requires 0 < i < |pages|
    ensures var front := Runs(pages[..i]);
      front != [] && Runs(pages[..i + 1]) ==
        if pages[i] == front[|front| - 1].hi + 1 then front[|front| - 1 := Span(front[|front| - 1].lo, pages[i])]
        else front + [Span(pages[i], pages[i])]
  {
    assert pages[..i + 1][..i] == pages[..i];
  }

  method NormalizePageRange(range: Option<string>, totalPages: Option<int>) returns (r: Option<string>)
    ensures r == Normalize(range, totalPages)
  {
    hide Parse, Trim, Decimal, Join, Runs, Covered, SpansOf, Split;
    if range.None? || range.value == [] || Trim(range.value) == [] { return None; }
    var total := if totalPages.Some? then totalPages.value else MAX_SAFE_INTEGER;
    var parsed := ParsePageRange(range.value, total);
    if !parsed.Pages? { return Some(Trim(range.value)); }
    ParseMeansCovered(range.value, total);
    var pages := parsed.pages;
    var parts: seq<string> := [];
    var start, prev := pages[0], pages[0];
    FirstRun(pages);
    for i := 1 to |pages|
      invariant Runs(pages[..i]) != []
      invariant var runs := Runs(pages[..i]);
        runs[|runs| - 1] == Span(start, prev) && parts == PrintAll(runs[..|runs| - 1])
    {
      var p := pages[i];
      ghost var runs := Runs(pages[..i]);
      RunsGrow(pages, i);
      if p == prev + 1 {
        assert Runs(pages[..i + 1])[..|runs| - 1] == runs[..|runs| - 1];
        prev := p;
        continue;
      }
      parts := parts + [if start == prev then Decimal(start) else Decimal(start) + ['-'] + Decimal(prev)];
      assert Runs(pages[..i + 1])[..|runs|] == runs;
      start, prev := p, p;
    }
    // The sentinel Infinity closes the last run.
    parts := parts + [if start == prev then Decimal(start) else Decimal(start) + ['-'] + Decimal(prev)];
    assert pages[..|pages|] == pages;
    assert parts == PrintAll(Runs(pages));
    r := Some(Join(parts, ','));
  }
}
