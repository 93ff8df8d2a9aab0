/** Which snapshot names retention keeps (internal/dataplane/snapshot.go). */
module Retention {
  import opened Text
  import opened Ordering

  /** The names that sort after `n`. */
  function Newer(names: set<string>, n: string): set<string> {
    set m | m in names && Less(n, m)
  }

  /** `n` survives pruning to `keep` names; a negative `keep` prunes nothing. */
  predicate Keeps(names: set<string>, keep: int, n: string) {
    n in names && (keep < 0 || |Newer(names, n)| < keep)
  }

  function Kept(names: set<string>, keep: int): set<string> {
    set n | n in names && Keeps(names, keep, n)
  }

  function Doomed(names: set<string>, keep: int): set<string> {
    names - Kept(names, keep)
  }

  lemma Suffix(sorted: seq<string>, cut: nat)
    requires Increasing(sorted, Less) && cut <= |sorted|
    ensures |Elements(sorted[cut..])| == |sorted| - cut
    ensures forall i :: 0 <= i < |sorted| ==> (sorted[i] in Elements(sorted[cut..]) <==> cut <= i)
    ensures forall n :: n in Elements(sorted[cut..]) ==> n in sorted
  {
    var rest := sorted[cut..];
    LessIsStrictOrder();
    assert NoDuplicates(sorted);
    forall i | 0 <= i < |sorted| ensures sorted[i] in rest <==> cut <= i {
      if cut <= i {
        assert rest[i - cut] == sorted[i];
      }
      if sorted[i] in rest {
        var k :| 0 <= k < |rest| && rest[k] == sorted[i];
        assert sorted[cut + k] == sorted[i];
      }
    }
    assert forall j :: 0 <= j < |rest| ==> rest[j] == sorted[cut + j];
    DistinctCount(rest);
  }

  /** In a sorted list, the newer names are the ones that follow. */
  lemma NewerFollows(names: set<string>, sorted: seq<string>, i: nat)
    requires Increasing(sorted, Less) && (forall n :: n in sorted <==> n in names) && i < |sorted|
    ensures |Newer(names, sorted[i])| == |sorted| - 1 - i
  {
    LessIsStrictOrder();
    Suffix(sorted, i + 1);
    forall m ensures m in Newer(names, sorted[i]) <==> m in Elements(sorted[i + 1..]) {
      if m in names {
        var k :| 0 <= k < |sorted| && sorted[k] == m;
      }
    }
    assert Newer(names, sorted[i]) == Elements(sorted[i + 1..]);
  }

  /** Removing the first names of the sorted list until `keep` are left removes exactly the doomed ones. */
  lemma DoomedIsPrefix(names: set<string>, keep: int, sorted: seq<string>)
    requires Increasing(sorted, Less) && forall n :: n in sorted <==> n in names
    ensures var cut := if 0 <= keep < |sorted| then |sorted| - keep else 0;
      forall i :: 0 <= i < |sorted| ==> (sorted[i] in Doomed(names, keep) <==> i < cut)
  {
    forall i | 0 <= i < |sorted| ensures sorted[i] in names && |Newer(names, sorted[i])| == |sorted| - 1 - i {
      NewerFollows(names, sorted, i);
      assert sorted[i] in sorted;
    }
  }

  /** Exactly the min(n, keep) newest names are kept: nothing kept is older than anything removed. */
  lemma KeepsTheNewest(names: set<string>, keep: int)
    ensures |Kept(names, keep)| == if keep < 0 || |names| <= keep then |names| else keep
    ensures forall m, n :: m in Doomed(names, keep) && n in Kept(names, keep) ==> Less(m, n)
  {
    var sorted := SortedNames(names);
    var cut := if 0 <= keep < |sorted| then |sorted| - keep else 0;
    hide Keeps;
    DoomedIsPrefix(names, keep, sorted);
    Suffix(sorted, cut);
    forall n ensures n in Kept(names, keep) <==> n in Elements(sorted[cut..]) {
      if n in names {
        var i :| 0 <= i < |sorted| && sorted[i] == n;
      }
    }
    assert Kept(names, keep) == Elements(sorted[cut..]);
    forall m, n | m in Doomed(names, keep) && n in Kept(names, keep) ensures Less(m, n) {
      var i :| 0 <= i < |sorted| && sorted[i] == m;
      var j :| 0 <= j < |sorted| && sorted[j] == n;
    }
  }

  /** Names that are going to be removed anyway do not change what is kept: pruning can be interrupted and repeated. */
  lemma DoomedNamesDoNotMatter(names: set<string>, fewer: set<string>, keep: int)
    requires fewer <= names && names - fewer <= Doomed(names, keep)
    ensures Kept(fewer, keep) == Kept(names, keep)
  {
    KeepsTheNewest(names, keep);
    forall n ensures n in Kept(fewer, keep) <==> n in Kept(names, keep) {
      if n in Kept(names, keep) && keep >= 0 {
        assert Newer(fewer, n) <= Newer(names, n);
        Smaller(Newer(fewer, n), Newer(names, n));
      }
      if n in fewer && n !in Kept(names, keep) {
        assert n in Doomed(names, keep);
        assert Kept(names, keep) <= Newer(fewer, n);
        Smaller(Kept(names, keep), Newer(fewer, n));
        KeptIsFull(names, keep, n);
      }
    }
  }

  lemma KeptIsFull(names: set<string>, keep: int, n: string)
    requires n in Doomed(names, keep)
    ensures keep >= 0 && |Kept(names, keep)| == keep
  {
    KeepsTheNewest(names, keep);
    if |names| <= keep {
      assert Newer(names, n) <= names - {n} by { LessTrichotomy(n, n); }
      Smaller(Newer(names, n), names - {n});
    }
  }

  lemma {:induction false} Smaller<T>(a: set<T>, b: set<T>)
    requires a <= b
    ensures |a| <= |b|
    ensures a != b ==> |a| < |b|
  {
    if a != {} {
      var x :| x in a;
      Smaller(a - {x}, b - {x});
    }
  }
}
