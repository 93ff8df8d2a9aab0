/** Sorting: `sort.Strings`, `sort.Slice`, and the fact that a strictly sorted sequence is determined by
    its elements, which is what makes the sources' results independent of Go's map iteration order. */
module Ordering {

  ghost predicate Transitive<T(!new)>(lt: (T, T) -> bool) {
    forall x, y, z :: lt(x, y) && lt(y, z) ==> lt(x, z)
  }

  ghost predicate Asymmetric<T(!new)>(lt: (T, T) -> bool) {
    forall x, y :: lt(x, y) ==> !lt(y, x)
  }

  /** Distinct elements of `s` are comparable. */
  ghost predicate Comparable<T>(s: seq<T>, lt: (T, T) -> bool) {
    forall i, j :: 0 <= i < |s| && 0 <= j < |s| && s[i] != s[j] ==> lt(s[i], s[j]) || lt(s[j], s[i])
  }

  ghost predicate Increasing<T>(s: seq<T>, lt: (T, T) -> bool) {
    forall i, j :: 0 <= i < j < |s| ==> lt(s[i], s[j])
  }

  ghost predicate NoDuplicates<T>(s: seq<T>) {
    forall i, j :: 0 <= i < j < |s| ==> s[i] != s[j]
  }

  function Elements<T>(s: seq<T>): set<T> {
    set x | x in s
  }

  function Insert<T(!new)>(x: T, s: seq<T>, lt: (T, T) -> bool): (r: seq<T>)
    ensures |r| == |s| + 1
    ensures forall y :: y in r <==> y == x || y in s
  {
    if s == [] || lt(x, s[0]) then [x] + s
    else
      var rest := Insert(x, s[1..], lt);
      assert forall y :: y in s <==> y == s[0] || y in s[1..];
      [s[0]] + rest
  }

  function SortBy<T(!new)>(s: seq<T>, lt: (T, T) -> bool): (r: seq<T>)
    ensures |r| == |s|
    ensures forall y :: y in r <==> y in s
  {
    if s == [] then []
    else
      assert forall y :: y in s <==> y == s[0] || y in s[1..];
      Insert(s[0], SortBy(s[1..], lt), lt)
  }

  lemma {:induction false} InsertIncreasing<T(!new)>(x: T, s: seq<T>, lt: (T, T) -> bool)
    requires Transitive(lt) && Increasing(s, lt)
    requires forall y :: y in s ==> lt(x, y) || lt(y, x)
    ensures Increasing(Insert(x, s, lt), lt)
  {
    if s != [] && !lt(x, s[0]) {
      InsertIncreasing(x, s[1..], lt);
      var rest := Insert(x, s[1..], lt);
      forall j | 0 <= j < |rest| ensures lt(s[0], rest[j]) {
        assert rest[j] in rest;
        if rest[j] != x {
          var k :| 0 <= k < |s[1..]| && s[1..][k] == rest[j];
          assert s[k + 1] == rest[j];
        }
      }
    }
  }

  lemma {:induction false} SortByIncreasing<T(!new)>(s: seq<T>, lt: (T, T) -> bool)
    requires Transitive(lt) && Comparable(s, lt) && NoDuplicates(s)
    ensures Increasing(SortBy(s, lt), lt)
  {
    if s != [] {
      SortByIncreasing(s[1..], lt);
      forall y | y in SortBy(s[1..], lt) ensures lt(s[0], y) || lt(y, s[0]) {
        var k :| 0 <= k < |s[1..]| && s[1..][k] == y;
        assert s[0] != s[k + 1];
      }
      InsertIncreasing(s[0], SortBy(s[1..], lt), lt);
    }
  }

  /** Two strictly increasing sequences with the same elements are the same sequence. */
  lemma {:induction false} IncreasingUnique<T(!new)>(s: seq<T>, t: seq<T>, lt: (T, T) -> bool)
    requires Asymmetric(lt) && Increasing(s, lt) && Increasing(t, lt)
    requires forall x :: x in s <==> x in t
    ensures s == t
  {
    if s != [] { HeadIsLeast(t, s[0], lt); }
    if t != [] { HeadIsLeast(s, t[0], lt); }
    if s != [] {
      forall x ensures x in s[1..] <==> x in t[1..] {
        TailElements(s, x, lt);
        TailElements(t, x, lt);
      }
      IncreasingUnique(s[1..], t[1..], lt);
    }
  }

  lemma HeadIsLeast<T(!new)>(s: seq<T>, x: T, lt: (T, T) -> bool)
    requires Increasing(s, lt) && x in s
    ensures s != [] && (x == s[0] || lt(s[0], x))
  {
    var k :| 0 <= k < |s| && s[k] == x;
  }

  lemma TailElements<T(!new)>(s: seq<T>, x: T, lt: (T, T) -> bool)
    requires Asymmetric(lt) && Increasing(s, lt) && s != []
    ensures x in s[1..] <==> x in s && x != s[0]
  {
    if x in s && x != s[0] {
      var k :| 0 <= k < |s| && s[k] == x;
      assert s[1..][k - 1] == x;
    }
    if x in s[1..] {
      var k :| 0 <= k < |s[1..]| && s[1..][k] == x;
      assert s[k + 1] == x && lt(s[0], s[k + 1]);
    }
  }

  /** The elements of a set, listed in the order an arbitrary map iteration could give them. */
  ghost function Listing<T(!new)>(s: set<T>): (r: seq<T>)
    ensures NoDuplicates(r) && |r| == |s|
    ensures forall x :: x in r <==> x in s
  {
    if s == {} then [] else
      var x :| x in s;
      [x] + Listing(s - {x})
  }

  /** A sequence without duplicates has as many elements as its set. */
  lemma {:induction false} DistinctCount<T>(s: seq<T>)
    requires NoDuplicates(s)
    ensures |Elements(s)| == |s|
  {
    if s == [] {
      assert Elements(s) == {};
    } else {
      DistinctCount(s[1..]);
      assert Elements(s) == {s[0]} + Elements(s[1..]);
      assert forall k :: 0 <= k < |s[1..]| ==> s[1..][k] == s[k + 1];
    }
  }
}
