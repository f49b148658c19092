/** The string operations the page-range code uses, and how they undo each other. */
module Text {
  /** What `\s` matches and `trim` removes: white space and line terminators. */
  predicate IsSpace(c: char) {
    var u := c as int;
    9 <= u <= 13 || u == 0x20 || u == 0xA0 || u == 0x1680 || 0x2000 <= u <= 0x200A || u == 0x2028 || u == 0x2029
    || u == 0x202F || u == 0x205F || u == 0x3000 || u == 0xFEFF
  }

  /** The white space of `trim`, point by point. */
  lemma SpacesAre(c: char)
    ensures IsSpace(c) <==>
      c as int in [9, 10, 11, 12, 13, 0x20, 0xA0, 0x1680, 0x2000, 0x2001, 0x2002, 0x2003, 0x2004, 0x2005, 0x2006, 0x2007, 0x2008, 0x2009,
                   0x200A, 0x2028, 0x2029, 0x202F, 0x205F, 0x3000, 0xFEFF]
  {
  }

  predicate IsDigit(c: char) { '0' <= c <= '9' }

  predicate AllSpace(s: string) { forall i :: 0 <= i < |s| ==> IsSpace(s[i]) }
  predicate AllDigits(s: string) { forall i :: 0 <= i < |s| ==> IsDigit(s[i]) }
  predicate IsNumeral(s: string) { s != [] && AllDigits(s) }
  predicate Lacks(s: string, c: char) { forall i :: 0 <= i < |s| ==> s[i] != c }

  // ---------- trim ----------

  function TrimStart(s: string): string {
    if s != [] && IsSpace(s[0]) then TrimStart(s[1..]) else s
  }

  function TrimEnd(s: string): string {
    if s != [] && IsSpace(s[|s| - 1]) then TrimEnd(s[..|s| - 1]) else s
  }

  function Trim(s: string): string { TrimEnd(TrimStart(s)) }

  predicate Tight(s: string) { s == [] || (!IsSpace(s[0]) && !IsSpace(s[|s| - 1])) }

  lemma {:induction false} TrimStartDrops(a: string, t: string)
    requires AllSpace(a) && (t == [] || !IsSpace(t[0]))
    ensures TrimStart(a + t) == t
  {
    if a == [] {
      assert a + t == t;
    } else {
      assert (a + t)[1..] == a[1..] + t;
      TrimStartDrops(a[1..], t);
    }
  }

  lemma {:induction false} TrimEndDrops(t: string, b: string)
    requires AllSpace(b) && (t == [] || !IsSpace(t[|t| - 1]))
    ensures TrimEnd(t + b) == t
  {
    if b == [] {
      assert t + b == t;
    } else {
      assert (t + b)[..|t + b| - 1] == t + b[..|b| - 1];
      TrimEndDrops(t, b[..|b| - 1]);
    }
  }

  /** Trimming drops exactly the surrounding spaces. */
  lemma TrimSandwich(a: string, t: string, b: string)
    requires AllSpace(a) && AllSpace(b) && Tight(t)
    ensures Trim(a + t + b) == t
  {
    if t == [] {
      assert a + t + b == (a + b) + [];
      TrimStartDrops(a + b, []);
    } else {
      assert a + t + b == a + (t + b);
      TrimStartDrops(a, t + b);
      TrimEndDrops(t, b);
    }
  }

  lemma {:induction false} TrimStartSplits(s: string) returns (a: string)
    ensures AllSpace(a) && s == a + TrimStart(s)
    ensures TrimStart(s) == [] || !IsSpace(TrimStart(s)[0])
  {
    if s != [] && IsSpace(s[0]) {
      a := TrimStartSplits(s[1..]);
      a := [s[0]] + a;
    } else {
      a := [];
    }
  }

  lemma {:induction false} TrimEndSplits(s: string) returns (b: string)
    ensures AllSpace(b) && s == TrimEnd(s) + b
    ensures TrimEnd(s) == [] || !IsSpace(TrimEnd(s)[|TrimEnd(s)| - 1])
  {
    if s != [] && IsSpace(s[|s| - 1]) {
      b := TrimEndSplits(s[..|s| - 1]);
      b := b + [s[|s| - 1]];
    } else {
      b := [];
    }
  }

  lemma TrimSplits(s: string) returns (a: string, b: string)
    ensures AllSpace(a) && AllSpace(b) && Tight(Trim(s)) && s == a + Trim(s) + b
  {
    a := TrimStartSplits(s);
    b := TrimEndSplits(TrimStart(s));
  }

  lemma TrimIdempotent(s: string)
    ensures Trim(Trim(s)) == Trim(s)
  {
    var a, b := TrimSplits(s);
    TrimSandwich([], Trim(s), []);
    assert [] + Trim(s) + [] == Trim(s);
  }

  // ---------- split and join ----------

  function Split(s: string, c: char): (parts: seq<string>)
    ensures parts != []
  {
    if s == [] then [[]]
    else
      var rest := Split(s[1..], c);
      if s[0] == c then [[]] + rest else [[s[0]] + rest[0]] + rest[1..]
  }

  function Join(parts: seq<string>, c: char): string {
    if parts == [] then [] else if |parts| == 1 then parts[0] else parts[0] + [c] + Join(parts[1..], c)
  }

  lemma {:induction false} SplitWhole(s: string, c: char)
    requires Lacks(s, c)
    ensures Split(s, c) == [s]
  {
    if s != [] {
      SplitWhole(s[1..], c);
      assert [s[0]] + s[1..] == s;
    }
  }

  lemma {:induction false} SplitFirst(p: string, rest: string, c: char)
    requires Lacks(p, c)
    ensures Split(p + [c] + rest, c) == [p] + Split(rest, c)
  {
    var s := p + [c] + rest;
    if p == [] {
      assert s[1..] == rest;
    } else {
      assert s[1..] == p[1..] + [c] + rest;
      SplitFirst(p[1..], rest, c);
      assert [p[0]] + p[1..] == p;
    }
  }

  lemma SplitStep(s: string, c: char)
    requires s != []
    ensures var tail := Split(s[1..], c);
      if s[0] == c then Split(s, c)[0] == [] && Split(s, c)[1..] == tail
      else Split(s, c)[0] == [s[0]] + tail[0] && Split(s, c)[1..] == tail[1..]
  {
  }

  /** Splitting cuts at the first separator, or not at all. */
  lemma {:induction false} SplitCuts(s: string, c: char) returns (rest: string)
    ensures Lacks(Split(s, c)[0], c)
    ensures |Split(s, c)| == 1 ==> s == Split(s, c)[0]
    ensures |Split(s, c)| > 1 ==> s == Split(s, c)[0] + [c] + rest && Split(rest, c) == Split(s, c)[1..]
  {
    hide Split, Lacks;
    if s == [] {
      rest := [];
      NothingLacks(c);
      SplitWhole(s, c);
    } else {
      var tail := s[1..];
      rest := SplitCuts(tail, c);
      SplitStep(s, c);
      NothingLacks(c);
      LacksCons(s[0], Split(tail, c)[0], c);
      if s[0] == c { rest := tail; }
      assert s == [s[0]] + tail;
    }
  }

  lemma NothingLacks(c: char)
    ensures Lacks([], c)
  {
  }

  lemma LacksCons(x: char, s: string, c: char)
    requires Lacks(s, c)
    ensures x != c ==> Lacks([x] + s, c)
  {
  }

  /** Splitting undoes joining. */
  lemma {:induction false} SplitJoin(parts: seq<string>, c: char)
    requires parts != [] && forall i :: 0 <= i < |parts| ==> Lacks(parts[i], c)
    ensures Split(Join(parts, c), c) == parts
  {
    if |parts| == 1 {
      SplitWhole(parts[0], c);
    } else {
      SplitFirst(parts[0], Join(parts[1..], c), c);
      SplitJoin(parts[1..], c);
    }
  }

  lemma {:induction false} JoinEnds(parts: seq<string>, c: char)
    requires parts != [] && forall i :: 0 <= i < |parts| ==> parts[i] != []
    ensures var s := Join(parts, c);
      s != [] && s[0] == parts[0][0] && s[|s| - 1] == parts[|parts| - 1][|parts[|parts| - 1]| - 1]
  {
    if |parts| > 1 { JoinEnds(parts[1..], c); }
  }

  // ---------- decimal numerals ----------

  function Number(s: string): nat
    requires AllDigits(s)
  {
    if s == [] then 0 else 10 * Number(s[..|s| - 1]) + (s[|s| - 1] as int - '0' as int)
  }

  function DigitOf(d: nat): (c: char)
    requires d < 10
    ensures IsDigit(c) && c as int - '0' as int == d
  {
    (d + '0' as int) as char
  }

  function Decimal(n: nat): (s: string)
    ensures IsNumeral(s)
  {
    if n < 10 then [DigitOf(n)] else Decimal(n / 10) + [DigitOf(n % 10)]
  }

  lemma {:induction false} NumberOfDecimal(n: nat)
    ensures Number(Decimal(n)) == n
  {
    if n < 10 {
      assert Decimal(n)[..0] == [];
    } else {
      NumberOfDecimal(n / 10);
      assert Decimal(n)[..|Decimal(n)| - 1] == Decimal(n / 10);
    }
  }
}
