/** The distinct-value lists shown as filter options:
    `Array.from(new Set(values)).sort()`. */
module Ordered {
  import opened Text

  predicate NoDuplicates(s: seq<string>) {
    forall i, j :: 0 <= i < j < |s| ==> s[i] != s[j]
  }

  predicate Sorted(s: seq<string>) {
    forall i, j :: 0 <= i < j < |s| ==> LessEq(s[i], s[j])
  }

  /** `Array.from(new Set(s))`: the first occurrence of every value, in
      insertion order. */
  function Dedup(s: seq<string>): (r: seq<string>)
    ensures NoDuplicates(r)
    ensures forall x :: x in r <==> x in s
  {
    if s == [] then []
    else
      var d := Dedup(s[..|s| - 1]);
      var last := s[|s| - 1];
      assert s == s[..|s| - 1] + [last];
      if last in d then d else d + [last]
  }

  /** Insertion of one value into a sorted list, as a comparison sort does. */
  function Insert(x: string, s: seq<string>): (r: seq<string>)
    ensures multiset(r) == multiset(s) + multiset{x}
  {
    if s == [] || LessEq(x, s[0]) then [x] + s
    else
      assert s == [s[0]] + s[1..];
      [s[0]] + Insert(x, s[1..])
  }

  /** `Array.prototype.sort` with no comparator, on strings. */
  function Sort(s: seq<string>): (r: seq<string>)
    ensures multiset(r) == multiset(s)
  {
    if s == [] then []
    else
      assert s == [s[0]] + s[1..];
      Insert(s[0], Sort(s[1..]))
  }

  lemma {:induction false} InsertSorted(x: string, s: seq<string>)
    requires Sorted(s)
    ensures Sorted(Insert(x, s))
  {
    if s == [] || LessEq(x, s[0]) {
      forall j | 0 <= j < |s| ensures LessEq(x, s[j]) {
        if j > 0 { LessEqTransitive(x, s[0], s[j]); }
      }
    } else {
      LessEqTotal(x, s[0]);
      InsertSorted(x, s[1..]);
      var r := Insert(x, s[1..]);
      forall y | y in r ensures LessEq(s[0], y) {
        assert y in multiset(r);
        if y != x {
          assert y in s[1..];
        }
      }
    }
  }

  lemma {:induction false} InsertNoDuplicates(x: string, s: seq<string>)
    requires NoDuplicates(s) && x !in s
    ensures NoDuplicates(Insert(x, s))
  {
    if s != [] && !LessEq(x, s[0]) {
      InsertNoDuplicates(x, s[1..]);
      var r := Insert(x, s[1..]);
      assert s[0] !in s[1..];
      assert s[0] !in multiset(r);
    }
  }

  lemma {:induction false} SortSorted(s: seq<string>)
    ensures Sorted(Sort(s))
  {
    if s != [] {
      SortSorted(s[1..]);
      InsertSorted(s[0], Sort(s[1..]));
    }
  }

  lemma {:induction false} SortNoDuplicates(s: seq<string>)
    requires NoDuplicates(s)
    ensures NoDuplicates(Sort(s))
  {
    if s != [] {
      SortNoDuplicates(s[1..]);
      assert s[0] !in s[1..];
      assert s[0] !in multiset(Sort(s[1..]));
      InsertNoDuplicates(s[0], Sort(s[1..]));
    }
  }

  /** The option list built from a column of values. */
  function DistinctSorted(values: seq<string>): seq<string> {
    Sort(Dedup(values))
  }

  /** The option list has no duplicates, is sorted ascending, holds exactly
      the values of the column, and is strictly ascending as a consequence. */
  lemma DistinctSortedSpec(values: seq<string>)
    ensures NoDuplicates(DistinctSorted(values))
    ensures Sorted(DistinctSorted(values))
    ensures forall x :: x in DistinctSorted(values) <==> x in values
    ensures forall i, j :: 0 <= i < j < |DistinctSorted(values)| ==>
              LessEq(DistinctSorted(values)[i], DistinctSorted(values)[j]) &&
              DistinctSorted(values)[i] != DistinctSorted(values)[j]
  {
    var d := Dedup(values);
    SortSorted(d);
    SortNoDuplicates(d);
    forall x ensures x in Sort(d) <==> x in d {
      assert x in Sort(d) <==> x in multiset(Sort(d));
    }
  }

  /** Two sorted, duplicate-free lists with the same elements are equal, so
      the option list does not depend on which comparison sort is used. */
  lemma {:induction false} SortedUnique(a: seq<string>, b: seq<string>)
    requires Sorted(a) && NoDuplicates(a) && Sorted(b) && NoDuplicates(b)
    requires forall x :: x in a <==> x in b
    ensures a == b
    decreases |a|
  {
    assert b != [] ==> b[0] in b;
    if a != [] {
      assert a[0] in b;
      assert b != [];
      assert b[0] in a;
      var i :| 0 <= i < |a| && a[i] == b[0];
      var j :| 0 <= j < |b| && b[j] == a[0];
      assert LessEq(a[0], a[i]) by { if i > 0 { } else { LessEqReflexive(a[0]); } }
      assert LessEq(b[0], b[j]) by { if j > 0 { } else { LessEqReflexive(b[0]); } }
      LessEqAntisymmetric(a[0], b[0]);
      forall x ensures x in a[1..] <==> x in b[1..] {
        if x in a[1..] {
          var k :| 0 <= k < |a| - 1 && a[1..][k] == x;
          assert x != a[0] && a[k + 1] == x && x in b;
          var m :| 0 <= m < |b| && b[m] == x;
          assert b[1..][m - 1] == x;
        }
        if x in b[1..] {
          var k :| 0 <= k < |b| - 1 && b[1..][k] == x;
          assert x != b[0] && b[k + 1] == x && x in a;
          var m :| 0 <= m < |a| && a[m] == x;
          assert a[1..][m - 1] == x;
        }
      }
      SortedUnique(a[1..], b[1..]);
      assert a == [a[0]] + a[1..] && b == [b[0]] + b[1..];
    }
  }

  /** The option list depends only on which values occur, not on their order
      or repetition in the column. */
  lemma DistinctSortedDependsOnValuesOnly(a: seq<string>, b: seq<string>)
    requires forall x :: x in a <==> x in b
    ensures DistinctSorted(a) == DistinctSorted(b)
  {
    DistinctSortedSpec(a);
    DistinctSortedSpec(b);
    SortedUnique(DistinctSorted(a), DistinctSorted(b));
  }
}
