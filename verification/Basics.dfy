/** Optional values, as the nullable columns of the database have them. */
module Options {
  datatype Option<+T> = None | Some(value: T)
}

/** Sums over a column of integers. */
module Sums {
  function Sum(column: seq<int>): int {
    if column == [] then 0 else Sum(column[..|column| - 1]) + column[|column| - 1]
  }

  lemma {:induction false} SumAppend(a: seq<int>, b: seq<int>)
    ensures Sum(a + b) == Sum(a) + Sum(b)
  {
    if b == [] {
      assert a + b == a;
    } else {
      assert (a + b)[..|a + b| - 1] == a + b[..|b| - 1];
      SumAppend(a, b[..|b| - 1]);
    }
  }

  lemma {:induction false} SumUpdate(column: seq<int>, i: nat, v: int)
    requires i < |column|
    ensures Sum(column[i := v]) == Sum(column) - column[i] + v
  {
    var last := |column| - 1;
    if i < last {
      assert column[i := v][..last] == column[..last][i := v];
      SumUpdate(column[..last], i, v);
    } else {
      assert column[i := v][..last] == column[..last];
    }
  }

  lemma {:induction false} SumPointwise(a: seq<int>, b: seq<int>, c: seq<int>)
    requires |a| == |b| == |c|
    requires forall i :: 0 <= i < |a| ==> a[i] == b[i] + c[i]
    ensures Sum(a) == Sum(b) + Sum(c)
  {
    if a != [] {
      var last := |a| - 1;
      SumPointwise(a[..last], b[..last], c[..last]);
    }
  }

  lemma {:induction false} SumBounds(column: seq<int>)
    requires forall i :: 0 <= i < |column| ==> 0 <= column[i]
    ensures 0 <= Sum(column)
    ensures forall i :: 0 <= i < |column| ==> column[i] <= Sum(column)
    ensures Sum(column) == 0 <==> forall i :: 0 <= i < |column| ==> column[i] == 0
  {
    if column != [] {
      var last := |column| - 1;
      SumBounds(column[..last]);
      forall i | 0 <= i < |column| ensures column[i] <= Sum(column) {
        if i < last { assert column[..last][i] == column[i]; }
      }
      if Sum(column) == 0 {
        forall i | 0 <= i < |column| ensures column[i] == 0 {
          if i < last { assert column[..last][i] == column[i]; }
        }
      }
    }
  }

  lemma {:induction false} SumZeros(column: seq<int>)
    requires forall i :: 0 <= i < |column| ==> column[i] == 0
    ensures Sum(column) == 0
  {
    if column != [] { SumZeros(column[..|column| - 1]); }
  }

  /** The values of a column at the listed rows, in list order. */
  function At(column: seq<int>, rows: seq<nat>): (r: seq<int>)
    requires forall k :: 0 <= k < |rows| ==> rows[k] < |column|
  {
    seq(|rows|, k requires 0 <= k < |rows| => column[rows[k]])
  }
}

/** `ORDER BY key ASC, id ASC` over table rows; a row's id is its insertion number. */
module RowOrder {
  import opened Sums

  /** A composite sort key, compared field by field. */
  datatype Key = Key(major: int, minor: int, last: int)

  predicate Less(x: Key, y: Key) {
    x.major < y.major
    || (x.major == y.major && (x.minor < y.minor || (x.minor == y.minor && x.last < y.last)))
  }

  predicate Before(keys: seq<Key>, i: nat, j: nat)
    requires i < |keys| && j < |keys|
  {
    Less(keys[i], keys[j]) || (keys[i] == keys[j] && i < j)
  }

  predicate InRange(rows: seq<nat>, n: nat) {
    forall k :: 0 <= k < |rows| ==> rows[k] < n
  }

  predicate Ordered(keys: seq<Key>, rows: seq<nat>) {
    InRange(rows, |keys|)
    && forall x, y :: 0 <= x < y < |rows| ==> Before(keys, rows[x], rows[y])
  }

  function PlaceRow(keys: seq<Key>, rows: seq<nat>, id: nat): (r: seq<nat>)
    requires id < |keys| && InRange(rows, |keys|)
    ensures InRange(r, |keys|)
  {
    if rows == [] then [id]
    else
      var last := rows[|rows| - 1];
      if Before(keys, id, last) then PlaceRow(keys, rows[..|rows| - 1], id) + [last] else rows + [id]
  }

  /** The picked rows among the first n, in key order. */
  function Sorted(keys: seq<Key>, pick: seq<bool>, n: nat): (r: seq<nat>)
    requires n <= |keys| == |pick|
    ensures InRange(r, |keys|)
  {
    if n == 0 then []
    else
      var r := Sorted(keys, pick, n - 1);
      if pick[n - 1] then PlaceRow(keys, r, n - 1) else r
  }

  function Select(keys: seq<Key>, pick: seq<bool>): (r: seq<nat>)
    requires |keys| == |pick|
    ensures InRange(r, |keys|)
  {
    Sorted(keys, pick, |keys|)
  }

  lemma {:induction false} InsertKeeps(keys: seq<Key>, rows: seq<nat>, id: nat)
    requires Ordered(keys, rows) && id < |keys| && id !in rows
    ensures Ordered(keys, PlaceRow(keys, rows, id))
    ensures forall x :: x in PlaceRow(keys, rows, id) <==> x == id || x in rows
  {
    if rows != [] {
      var init, last := rows[..|rows| - 1], rows[|rows| - 1];
      if Before(keys, id, last) {
        InsertKeeps(keys, init, id);
        var r := PlaceRow(keys, init, id);
        assert rows == init + [last];
        forall x | 0 <= x < |r| ensures Before(keys, r[x], last) {
          assert r[x] in r;
          if r[x] != id {
            var k :| 0 <= k < |init| && init[k] == r[x];
            assert Before(keys, rows[k], rows[|rows| - 1]);
          }
        }
      } else {
        forall k | 0 <= k < |rows| ensures Before(keys, rows[k], id) {
          if k < |rows| - 1 { assert Before(keys, rows[k], last); }
        }
      }
    }
  }

  lemma EmptyIsOrdered(keys: seq<Key>)
    ensures Ordered(keys, [])
  {
  }

  lemma {:induction false} SortedSpec(keys: seq<Key>, pick: seq<bool>, n: nat)
    requires n <= |keys| == |pick|
    ensures Ordered(keys, Sorted(keys, pick, n))
    ensures forall i: nat :: i in Sorted(keys, pick, n) <==> i < n && pick[i]
  {
    hide Ordered, Before, PlaceRow;
    if n == 0 {
      EmptyIsOrdered(keys);
    } else {
      SortedSpec(keys, pick, n - 1);
      if pick[n - 1] { InsertKeeps(keys, Sorted(keys, pick, n - 1), n - 1); }
    }
  }

  /** A selection holds exactly the picked rows, each once, in strictly increasing key order. */
  lemma SelectSpec(keys: seq<Key>, pick: seq<bool>)
    requires |keys| == |pick|
    ensures Ordered(keys, Select(keys, pick))
    ensures forall i: nat :: i in Select(keys, pick) <==> i < |keys| && pick[i]
    ensures forall x, y :: 0 <= x < y < |Select(keys, pick)| ==> Select(keys, pick)[x] != Select(keys, pick)[y]
  {
    SortedSpec(keys, pick, |keys|);
    var r := Select(keys, pick);
    forall x, y | 0 <= x < y < |r| ensures r[x] != r[y] {
      assert Before(keys, r[x], r[y]);
    }
  }

  /** Two selections in key order with the same members are the same list. */
  lemma {:induction false} OrderedUnique(keys: seq<Key>, a: seq<nat>, b: seq<nat>)
    requires Ordered(keys, a) && Ordered(keys, b)
    requires forall x :: x in a <==> x in b
    ensures a == b
  {
    hide Ordered, Before;
    if a == [] || b == [] {
      HeadsMeet(a, b);
    } else {
      SameLast(keys, a, b);
      OrderedUnique(keys, a[..|a| - 1], b[..|b| - 1]);
      assert a == a[..|a| - 1] + [a[|a| - 1]] && b == b[..|b| - 1] + [b[|b| - 1]];
    }
  }

  lemma HeadsMeet(a: seq<nat>, b: seq<nat>)
    requires forall x :: x in a <==> x in b
    ensures a == [] <==> b == []
  {
    assert a == [] || a[0] in a;
    assert b == [] || b[0] in b;
  }

  lemma BeforeIsStrict(keys: seq<Key>, x: nat, y: nat)
    requires x < |keys| && y < |keys| && Before(keys, x, y)
    ensures !Before(keys, y, x)
  {
  }

  lemma SameLast(keys: seq<Key>, a: seq<nat>, b: seq<nat>)
    requires Ordered(keys, a) && Ordered(keys, b) && a != [] && b != []
    requires forall x :: x in a <==> x in b
    ensures a[|a| - 1] == b[|b| - 1]
    ensures Ordered(keys, a[..|a| - 1]) && Ordered(keys, b[..|b| - 1])
    ensures var init, front := a[..|a| - 1], b[..|b| - 1]; forall z :: z in init <==> z in front
  {
    hide Before;
    var x, y := a[|a| - 1], b[|b| - 1];
    assert x in a && y in b;
    LastIsMax(keys, a, y);
    LastIsMax(keys, b, x);
    if x != y { BeforeIsStrict(keys, x, y); }
    InitMembers(keys, a);
    InitMembers(keys, b);
  }

  lemma InitMembers(keys: seq<Key>, a: seq<nat>)
    requires Ordered(keys, a) && a != []
    ensures Ordered(keys, a[..|a| - 1])
    ensures var init := a[..|a| - 1]; forall z :: z in init <==> z in a && z != a[|a| - 1]
  {
    hide Before;
    LastIsFresh(keys, a);
    assert a == a[..|a| - 1] + [a[|a| - 1]];
  }

  lemma LastIsMax(keys: seq<Key>, a: seq<nat>, z: nat)
    requires Ordered(keys, a) && z in a
    ensures z == a[|a| - 1] || Before(keys, z, a[|a| - 1])
  {
    var k :| 0 <= k < |a| && a[k] == z;
  }

  lemma LastIsFresh(keys: seq<Key>, a: seq<nat>)
    requires Ordered(keys, a) && a != []
    ensures a[|a| - 1] !in a[..|a| - 1]
  {
    var init := a[..|a| - 1];
    forall k | 0 <= k < |init| ensures init[k] != a[|a| - 1] {
      assert Before(keys, a[k], a[|a| - 1]);
    }
  }

  lemma {:induction false} InsertSum(keys: seq<Key>, rows: seq<nat>, id: nat, column: seq<int>)
    requires id < |keys| && InRange(rows, |keys|) && |column| == |keys|
    ensures Sum(At(column, PlaceRow(keys, rows, id))) == Sum(At(column, rows)) + column[id]
  {
    hide Before;
    if rows == [] {
      assert At(column, [id]) == [column[id]];
      assert Sum([column[id]]) == Sum([column[id]][..0]) + column[id];
    } else {
      var init, last := rows[..|rows| - 1], rows[|rows| - 1];
      assert At(column, rows) == At(column, init) + [column[last]];
      assert At(column, rows)[..|rows| - 1] == At(column, init);
      if Before(keys, id, last) {
        InsertSum(keys, init, id, column);
        var r := PlaceRow(keys, init, id);
        assert At(column, r + [last])[..|r|] == At(column, r);
      } else {
        assert At(column, rows + [id])[..|rows|] == At(column, rows);
      }
    }
  }

  function Masked(column: seq<int>, pick: seq<bool>): (r: seq<int>)
    requires |column| == |pick|
  {
    seq(|column|, i requires 0 <= i < |column| => if pick[i] then column[i] else 0)
  }

  lemma {:induction false} SortedSum(keys: seq<Key>, pick: seq<bool>, n: nat, column: seq<int>)
    requires n <= |keys| == |pick| == |column|
    ensures Sum(At(column, Sorted(keys, pick, n))) == Sum(Masked(column, pick)[..n])
  {
    if n > 0 {
      SortedSum(keys, pick, n - 1, column);
      assert Masked(column, pick)[..n][..n - 1] == Masked(column, pick)[..n - 1];
      if pick[n - 1] { InsertSum(keys, Sorted(keys, pick, n - 1), n - 1, column); }
    }
  }

  /** Adding up a column along a selection adds up exactly the picked rows. */
  lemma SelectSum(keys: seq<Key>, pick: seq<bool>, column: seq<int>)
    requires |keys| == |pick| == |column|
    ensures Sum(At(column, Select(keys, pick))) == Sum(Masked(column, pick))
  {
    SortedSum(keys, pick, |keys|, column);
    assert Masked(column, pick)[..|keys|] == Masked(column, pick);
  }
}
