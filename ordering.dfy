/** Ordering of keys as Python's `sorted` produces it: ascending, each key once. */
module Ordering {

  ghost predicate StrictTotalOrder<T(!new)>(lt: (T, T) -> bool) {
    && (forall a :: !lt(a, a))
    && (forall a, b, c :: lt(a, b) && lt(b, c) ==> lt(a, c))
    && (forall a, b :: a != b ==> lt(a, b) || lt(b, a))
  }

  predicate Ascending<T>(s: seq<T>, lt: (T, T) -> bool) {
    forall i, j :: 0 <= i < j < |s| ==> lt(s[i], s[j])
  }

  ghost predicate IsLeast<T>(m: T, ks: set<T>, lt: (T, T) -> bool) {
    m in ks && forall x :: x in ks && x != m ==> lt(m, x)
  }

  lemma {:induction false} LeastExists<T(!new)>(ks: set<T>, lt: (T, T) -> bool)
    requires StrictTotalOrder(lt)
    requires ks != {}
    ensures exists m :: IsLeast(m, ks, lt)
    decreases |ks|
  {
    var y :| y in ks;
    if ks != {y} {
      LeastExists(ks - {y}, lt);
      var m' :| IsLeast(m', ks - {y}, lt);
      if lt(y, m') {
        forall x | x in ks && x != y ensures lt(y, x) {
          if x != m' {
            assert lt(m', x);
          }
        }
        assert IsLeast(y, ks, lt);
      } else {
        assert IsLeast(m', ks, lt);
      }
    } else {
      assert IsLeast(y, ks, lt);
    }
  }

  /** The least key of a non-empty set. */
  ghost function Least<T(!new)>(ks: set<T>, lt: (T, T) -> bool): (m: T)
    requires StrictTotalOrder(lt) && ks != {}
    ensures IsLeast(m, ks, lt)
  {
    LeastExists(ks, lt);
    var m :| IsLeast(m, ks, lt);
    m
  }

  /** The ascending enumeration of a finite set of keys: the least key first. */
  ghost function SortedSeq<T(!new)>(ks: set<T>, lt: (T, T) -> bool): seq<T>
    requires StrictTotalOrder(lt)
    decreases |ks|
  {
    if ks == {} then []
    else
      var m := Least(ks, lt);
      [m] + SortedSeq(ks - {m}, lt)
  }

  /** `SortedSeq` holds the keys of the set, each once. */
  lemma {:induction false} SortedSeqMembers<T(!new)>(ks: set<T>, lt: (T, T) -> bool)
    requires StrictTotalOrder(lt)
    ensures (forall x :: x in SortedSeq(ks, lt) <==> x in ks) && |SortedSeq(ks, lt)| == |ks|
    decreases |ks|
  {
    if ks != {} {
      var m := Least(ks, lt);
      SortedSeqMembers(ks - {m}, lt);
    }
  }

  /** `SortedSeq` is ascending. */
  lemma {:induction false} SortedSeqAscending<T(!new)>(ks: set<T>, lt: (T, T) -> bool)
    requires StrictTotalOrder(lt)
    ensures Ascending(SortedSeq(ks, lt), lt)
    decreases |ks|
  {
    if ks != {} {
      var m := Least(ks, lt);
      var rest := SortedSeq(ks - {m}, lt);
      SortedSeqAscending(ks - {m}, lt);
      SortedSeqMembers(ks - {m}, lt);
      var r := [m] + rest;
      assert SortedSeq(ks, lt) == r;
      forall i, j | 0 <= i < j < |r| ensures lt(r[i], r[j]) {
        if i == 0 {
          assert r[j] == rest[j - 1];
          assert r[j] in ks - {m};
        } else {
          assert r[i] == rest[i - 1] && r[j] == rest[j - 1];
        }
      }
    }
  }

  /** `SortedSeq` is ascending and holds every key of the set exactly once. */
  lemma SortedSeqFacts<T(!new)>(ks: set<T>, lt: (T, T) -> bool)
    requires StrictTotalOrder(lt)
    ensures var r := SortedSeq(ks, lt);
      Ascending(r, lt) && (forall x :: x in r <==> x in ks) && |r| == |ks|
  {
    SortedSeqMembers(ks, lt);
    SortedSeqAscending(ks, lt);
  }

  /** The head of an ascending sequence precedes every other element. */
  lemma HeadIsLeast<T(!new)>(a: seq<T>, lt: (T, T) -> bool)
    requires StrictTotalOrder(lt)
    requires Ascending(a, lt) && a != []
    ensures forall x :: x in a && x != a[0] ==> lt(a[0], x)
  {
    forall x | x in a && x != a[0] ensures lt(a[0], x) {
      var i :| 0 <= i < |a| && a[i] == x;
    }
  }

  /** Two ascending sequences with the same elements are the same sequence. */
  lemma {:induction false} AscendingUnique<T(!new)>(a: seq<T>, b: seq<T>, lt: (T, T) -> bool)
    requires StrictTotalOrder(lt)
    requires Ascending(a, lt) && Ascending(b, lt)
    requires |a| == |b|
    requires forall x :: x in a <==> x in b
    ensures a == b
    decreases |a|
  {
    if a != [] {
      HeadIsLeast(a, lt);
      HeadIsLeast(b, lt);
      assert a[0] in b && b[0] in a;
      assert a[0] == b[0];
      forall x ensures x in a[1..] <==> x in b[1..] {
        if x in a[1..] {
          var i :| 1 <= i < |a| && a[i] == x;
          assert x != a[0] by { assert lt(a[0], a[i]); }
          assert x in b;
        }
        if x in b[1..] {
          var i :| 1 <= i < |b| && b[i] == x;
          assert x != b[0] by { assert lt(b[0], b[i]); }
          assert x in a;
        }
      }
      AscendingUnique(a[1..], b[1..], lt);
      assert a == [a[0]] + a[1..] && b == [b[0]] + b[1..];
    }
  }

  /** `sorted` over a set of distinct keys, by repeatedly taking the least. */
  method SortSet<T(!new)>(ks: set<T>, lt: (T, T) -> bool) returns (r: seq<T>)
    requires StrictTotalOrder(lt)
    ensures r == SortedSeq(ks, lt)
  {
    r := [];
    var rest := ks;
    while rest != {}
      invariant Ascending(r, lt)
      invariant forall x :: x in ks <==> x in r || x in rest
      invariant forall i, y :: 0 <= i < |r| && y in rest ==> lt(r[i], y)
      invariant |r| + |rest| == |ks|
      decreases |rest|
    {
      LeastExists(rest, lt);
      var m :| m in rest && forall x :: x in rest && x != m ==> lt(m, x);
      r := r + [m];
      rest := rest - {m};
    }
    SortedSeqFacts(ks, lt);
    AscendingUnique(r, SortedSeq(ks, lt), lt);
  }

  /** Python's string comparison: lexicographic by code point, a proper
      prefix first. */
  predicate StrLess(a: string, b: string)
    decreases |a|
  {
    if |a| == 0 then |b| > 0
    else if |b| == 0 then false
    else a[0] < b[0] || (a[0] == b[0] && StrLess(a[1..], b[1..]))
  }

  lemma {:induction false} StrLessIrreflexive(a: string)
    ensures !StrLess(a, a)
  {
    if |a| > 0 {
      StrLessIrreflexive(a[1..]);
    }
  }

  lemma {:induction false} StrLessTransitive(a: string, b: string, c: string)
    requires StrLess(a, b) && StrLess(b, c)
    ensures StrLess(a, c)
  {
    if |a| > 0 && |b| > 0 && |c| > 0 && a[0] == b[0] && b[0] == c[0] {
      StrLessTransitive(a[1..], b[1..], c[1..]);
    }
  }

  lemma {:induction false} StrLessTotal(a: string, b: string)
    requires a != b
    ensures StrLess(a, b) || StrLess(b, a)
  {
    if |a| > 0 && |b| > 0 && a[0] == b[0] {
      assert a == [a[0]] + a[1..] && b == [b[0]] + b[1..];
      StrLessTotal(a[1..], b[1..]);
    }
  }

  lemma StrLessIsStrictTotal()
    ensures StrictTotalOrder(StrLess)
  {
    forall a ensures !StrLess(a, a) {
      StrLessIrreflexive(a);
    }
    forall a, b, c | StrLess(a, b) && StrLess(b, c) ensures StrLess(a, c) {
      StrLessTransitive(a, b, c);
    }
    forall a, b | a != b ensures StrLess(a, b) || StrLess(b, a) {
      StrLessTotal(a, b);
    }
  }

  predicate IntLess(a: int, b: int) {
    a < b
  }

  lemma IntLessIsStrictTotal()
    ensures StrictTotalOrder(IntLess)
  {
  }
}
