/** Sums and concatenations over sequences, and their invariance under reordering. */
module Seqs {

  /** Sum of `f` over the elements of `s`, added left to right. */
  function SumOf<T>(s: seq<T>, f: T -> real): real
  {
    if s == [] then 0.0 else SumOf(s[..|s| - 1], f) + f(s[|s| - 1])
  }

  lemma {:induction false} SumOfAppend<T>(a: seq<T>, b: seq<T>, f: T -> real)
    ensures SumOf(a + b, f) == SumOf(a, f) + SumOf(b, f)
    decreases |b|
  {
    if b == [] {
      assert a + b == a;
    } else {
      assert (a + b)[..|a + b| - 1] == a + b[..|b| - 1];
      SumOfAppend(a, b[..|b| - 1], f);
    }
  }

  /** Taking element `k` out of `b` takes its term out of the sum. */
  lemma SumOfRemove<T>(b: seq<T>, k: nat, f: T -> real)
    requires k < |b|
    ensures SumOf(b, f) == SumOf(b[..k] + b[k + 1..], f) + f(b[k])
  {
    var front, upto, back := b[..k], b[..k + 1], b[k + 1..];
    assert b == upto + back;
    assert upto[..k] == front && upto[k] == b[k];
    assert SumOf(upto, f) == SumOf(front, f) + f(b[k]);
    SumOfAppend(upto, back, f);
    SumOfAppend(front, back, f);
  }

  lemma SumOfSingleton<T>(x: T, f: T -> real)
    ensures SumOf([x], f) == f(x)
  {
    assert [x][..0] == [];
  }

  lemma MultisetRemove<T>(b: seq<T>, k: nat)
    requires k < |b|
    ensures multiset(b[..k] + b[k + 1..]) == multiset(b) - multiset{b[k]}
  {
    assert b == b[..k] + [b[k]] + b[k + 1..];
  }

  /** Reordering a sequence does not change its sum. */
  lemma {:induction false} SumOfPermutation<T>(a: seq<T>, b: seq<T>, f: T -> real)
    requires multiset(a) == multiset(b)
    ensures SumOf(a, f) == SumOf(b, f)
    decreases |a|
  {
    if a == [] {
      assert b == [] by { assert |multiset(b)| == 0; }
    } else {
      var x := a[|a| - 1];
      var a' := a[..|a| - 1];
      assert a == a' + [x];
      assert multiset(a') == multiset(a) - multiset{x};
      assert x in multiset(b);
      var k :| 0 <= k < |b| && b[k] == x;
      MultisetRemove(b, k);
      SumOfPermutation(a', b[..k] + b[k + 1..], f);
      SumOfRemove(b, k, f);
    }
  }

  /** Concatenation of a sequence of sequences. */
  function Concat<T>(ss: seq<seq<T>>): seq<T>
  {
    if ss == [] then [] else Concat(ss[..|ss| - 1]) + ss[|ss| - 1]
  }

  /** The concatenation of the parts `f` gives the elements of `bs`, in order. */
  function MapConcat<B, T>(bs: seq<B>, f: B -> seq<T>): seq<T>
  {
    if bs == [] then [] else MapConcat(bs[..|bs| - 1], f) + f(bs[|bs| - 1])
  }

  /** `MapConcat` over five elements, spelled out. */
  lemma MapConcatFive<B, T>(bs: seq<B>, f: B -> seq<T>)
    requires |bs| == 5
    ensures MapConcat(bs, f) == f(bs[0]) + f(bs[1]) + f(bs[2]) + f(bs[3]) + f(bs[4])
  {
    var b4, b3, b2, b1 := bs[..4], bs[..3], bs[..2], bs[..1];
    assert b4[..3] == b3 && b3[..2] == b2 && b2[..1] == b1 && b1[..0] == [];
    MapConcatLast(bs, f);
    MapConcatLast(b4, f);
    MapConcatLast(b3, f);
    MapConcatLast(b2, f);
    MapConcatLast(b1, f);
    assert MapConcat(b1, f) == f(bs[0]);
  }

  /** One step of the definition of `MapConcat`. */
  lemma MapConcatLast<B, T>(bs: seq<B>, f: B -> seq<T>)
    requires bs != []
    ensures MapConcat(bs, f) == MapConcat(bs[..|bs| - 1], f) + f(bs[|bs| - 1])
  {
  }

  /** One step of the definition, for callers whose parts are costly to unfold. */
  lemma ConcatLast<T>(ss: seq<seq<T>>)
    requires ss != []
    ensures Concat(ss) == Concat(ss[..|ss| - 1]) + ss[|ss| - 1]
  {
  }

  /** The concatenation of the first `n` values of `f` is that of the first
      `n - 1`, then the last. */
  lemma ConcatSeqStep<T>(n: nat, f: int --> seq<T>)
    requires 0 < n && forall i :: 0 <= i < n ==> f.requires(i)
    ensures Concat(seq(n, f)) == Concat(seq(n - 1, f)) + f(n - 1)
  {
    var ss := seq(n, f);
    assert ss[..n - 1] == seq(n - 1, f);
    ConcatLast(ss);
  }

  lemma {:induction false} ConcatAppend<T>(a: seq<seq<T>>, b: seq<seq<T>>)
    ensures Concat(a + b) == Concat(a) + Concat(b)
    decreases |b|
  {
    if b == [] {
      assert a + b == a;
    } else {
      var front, last := b[..|b| - 1], b[|b| - 1];
      assert (a + b)[..|a + b| - 1] == a + front && (a + b)[|a + b| - 1] == last;
      assert Concat(a + b) == Concat(a + front) + last;
      ConcatAppend(a, front);
      assert Concat(b) == Concat(front) + last;
    }
  }

  /** Concatenating one-element sequences gives back their elements. */
  lemma {:induction false} ConcatSingletons<T>(ss: seq<seq<T>>, s: seq<T>)
    requires |ss| == |s| && forall i :: 0 <= i < |s| ==> ss[i] == [s[i]]
    ensures Concat(ss) == s
  {
    if s != [] {
      var k := |s| - 1;
      ConcatSingletons(ss[..k], s[..k]);
      assert s == s[..k] + [s[k]];
    }
  }

  /** After an empty first part, parts of two elements each: part `i` lands at
      positions `2i - 2` and `2i - 1`. */
  lemma {:induction false} ConcatPairs<T>(ss: seq<seq<T>>)
    requires ss != [] ==> ss[0] == []
    requires forall i :: 0 < i < |ss| ==> |ss[i]| == 2
    ensures |Concat(ss)| == if ss == [] then 0 else 2 * (|ss| - 1)
    ensures forall i :: 0 < i < |ss| ==> Concat(ss)[2 * i - 2] == ss[i][0] && Concat(ss)[2 * i - 1] == ss[i][1]
  {
    if |ss| == 1 {
      assert Concat(ss) == Concat(ss[..0]) + ss[0];
    } else if |ss| > 1 {
      var k := |ss| - 1;
      var front := ss[..k];
      ConcatPairs(front);
      assert Concat(ss) == Concat(front) + ss[k];
      forall i | 0 < i < |ss| ensures Concat(ss)[2 * i - 2] == ss[i][0] && Concat(ss)[2 * i - 1] == ss[i][1] {
        if i < k {
          assert front[i] == ss[i];
        }
      }
    }
  }

  /** The elements of `s` satisfying `p`, in order. */
  function Filter<T(!new)>(s: seq<T>, p: T -> bool): (r: seq<T>)
    ensures |r| <= |s|
    ensures forall x :: x in r <==> x in s && p(x)
  {
    if s == [] then []
    else
      var last := s[|s| - 1];
      Filter(s[..|s| - 1], p) + (if p(last) then [last] else [])
  }

  lemma {:induction false} FilterAppend<T(!new)>(a: seq<T>, b: seq<T>, p: T -> bool)
    ensures Filter(a + b, p) == Filter(a, p) + Filter(b, p)
    decreases |b|
  {
    if b == [] {
      assert a + b == a;
    } else {
      assert (a + b)[..|a + b| - 1] == a + b[..|b| - 1];
      FilterAppend(a, b[..|b| - 1], p);
    }
  }

  /** Sums agree when the summed functions agree on every element. */
  lemma {:induction false} SumOfCongruent<T>(s: seq<T>, f: T -> real, g: T -> real)
    requires forall i :: 0 <= i < |s| ==> f(s[i]) == g(s[i])
    ensures SumOf(s, f) == SumOf(s, g)
  {
    if s != [] {
      SumOfCongruent(s[..|s| - 1], f, g);
    }
  }

  /** `f` where `p` holds, zero elsewhere. */
  function Masked<T>(p: T -> bool, f: T -> real): T -> real {
    x => if p(x) then f(x) else 0.0
  }

  /** Summing over the filtered elements is summing the masked function. */
  lemma {:induction false} SumOfFilter<T(!new)>(s: seq<T>, p: T -> bool, f: T -> real)
    ensures SumOf(Filter(s, p), f) == SumOf(s, Masked(p, f))
  {
    if s != [] {
      var init, last := s[..|s| - 1], s[|s| - 1];
      SumOfFilter(init, p, f);
      if p(last) {
        SumOfAppend(Filter(init, p), [last], f);
        SumOfSingleton(last, f);
      } else {
        assert Filter(s, p) == Filter(init, p);
      }
    }
  }

  /** Changing the term of one element that occurs once changes the sum by the same amount. */
  lemma {:induction false} SumOfUpdate<T>(s: seq<T>, n: T, f: T -> real, g: T -> real, x: real)
    requires Distinct(s) && n in s
    requires forall i :: 0 <= i < |s| && s[i] != n ==> f(s[i]) == g(s[i])
    requires g(n) == f(n) + x
    ensures SumOf(s, g) == SumOf(s, f) + x
  {
    var init, last := s[..|s| - 1], s[|s| - 1];
    if last == n {
      assert forall i :: 0 <= i < |init| ==> init[i] != n;
      SumOfCongruent(init, f, g);
    } else {
      assert n in init;
      SumOfUpdate(init, n, f, g, x);
    }
  }

  /** No element occurs twice. */
  predicate Distinct<T(==)>(s: seq<T>) {
    forall i, j :: 0 <= i < j < |s| ==> s[i] != s[j]
  }

  /** Concatenation keeps every element of every part, and nothing else. */
  lemma {:induction false} ConcatUpdate<T>(ss: seq<seq<T>>, i: nat, x: T)
    requires i < |ss|
    ensures multiset(Concat(ss[i := ss[i] + [x]])) == multiset(Concat(ss)) + multiset{x}
  {
    var front, back := ss[..i], ss[i + 1..];
    assert ss == front + [ss[i]] + back;
    assert ss[i := ss[i] + [x]] == front + [ss[i] + [x]] + back;
    ConcatAppend(front + [ss[i]], back);
    ConcatAppend(front, [ss[i]]);
    ConcatAppend(front + [ss[i] + [x]], back);
    ConcatAppend(front, [ss[i] + [x]]);
    assert Concat([ss[i]]) == ss[i] by { assert [ss[i]][..0] == []; }
    assert Concat([ss[i] + [x]]) == ss[i] + [x] by { assert [ss[i] + [x]][..0] == []; }
  }

  /** Nothing passes the filter when no element satisfies the predicate. */
  lemma FilterNone<T(!new)>(s: seq<T>, p: T -> bool)
    requires forall x :: x in s ==> !p(x)
    ensures Filter(s, p) == []
  {
    if Filter(s, p) != [] {
      assert Filter(s, p)[0] in Filter(s, p);
    }
  }

  /** The filter of a non-empty sequence, split at its last element. */
  lemma FilterLast<T(!new)>(s: seq<T>, p: T -> bool)
    requires s != []
    ensures Filter(s, p) == Filter(s[..|s| - 1], p) + (if p(s[|s| - 1]) then [s[|s| - 1]] else [])
  {
  }

  function One<T>(x: T): real {
    1.0
  }

  /** Counting is summing ones. */
  lemma {:induction false} SumOfOne<T>(s: seq<T>)
    ensures SumOf(s, One) == |s| as real
  {
    if s != [] {
      SumOfOne(s[..|s| - 1]);
    }
  }

  /** Everything passes the filter when every element satisfies the predicate. */
  lemma {:induction false} FilterAll<T(!new)>(s: seq<T>, p: T -> bool)
    requires forall x :: x in s ==> p(x)
    ensures Filter(s, p) == s
  {
    if s != [] {
      var init, last := s[..|s| - 1], s[|s| - 1];
      assert s == init + [last];
      FilterAll(init, p);
      assert p(last);
    }
  }

  /** Filtering keeps each element that passes as often as it occurs, and no other. */
  lemma {:induction false} FilterCount<T(!new)>(s: seq<T>, p: T -> bool, x: T)
    ensures multiset(Filter(s, p))[x] == if p(x) then multiset(s)[x] else 0
  {
    if s != [] {
      var init, last := s[..|s| - 1], s[|s| - 1];
      assert s == init + [last];
      FilterCount(init, p, x);
    }
  }

  /** Filtering two permutations of each other gives permutations of each other. */
  lemma FilterPermutation<T(!new)>(a: seq<T>, b: seq<T>, p: T -> bool)
    requires multiset(a) == multiset(b)
    ensures multiset(Filter(a, p)) == multiset(Filter(b, p))
  {
    forall x ensures multiset(Filter(a, p))[x] == multiset(Filter(b, p))[x] {
      FilterCount(a, p, x);
      FilterCount(b, p, x);
    }
  }

  /** Filtering keeps a sequence free of repetitions. */
  lemma {:induction false} FilterDistinct<T(!new)>(s: seq<T>, p: T -> bool)
    requires Distinct(s)
    ensures Distinct(Filter(s, p))
  {
    if s != [] {
      var init := s[..|s| - 1];
      assert Distinct(init);
      FilterDistinct(init, p);
      assert s[|s| - 1] !in init;
    }
  }
}
