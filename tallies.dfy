/** The per-exercise totals `Distance_by_exercise` and `Volume_by_exercise`:
    a dictionary that remembers the order in which names were first added
    (src/report/generator.py, lines 289-301). */
module Tallies {
  import opened Seqs

  datatype Tally = Tally(names: seq<string>, amount: map<string, real>)

  const NoTally := Tally([], map[])

  /** Every name is listed once, and the listed names are the keys. */
  predicate Valid(t: Tally) {
    Distinct(t.names) && t.amount.Keys == (set n | n in t.names)
  }

  function Positive(x: real): (r: real)
    ensures r >= 0.0 && r >= x
  {
    if x > 0.0 then x else 0.0
  }

  /** Lines 290-293 (and 298-301): a positive contribution is added under
      the name, creating the key at zero first; anything else is dropped. */
  function Add(t: Tally, n: string, x: real): Tally {
    if x > 0.0 then
      if n in t.amount then Tally(t.names, t.amount[n := t.amount[n] + x])
      else Tally(t.names + [n], t.amount[n := 0.0 + x])
    else t
  }

  /** A positive contribution lands under its name and nowhere else; any
      other contribution leaves the tally as it was. */
  lemma AddEffect(t: Tally, n: string, x: real)
    ensures Valid(t) ==> Valid(Add(t, n, x))
    ensures x > 0.0 ==> n in Add(t, n, x).amount && Add(t, n, x).amount[n] == (if n in t.amount then t.amount[n] else 0.0) + x
    ensures x <= 0.0 ==> Add(t, n, x) == t
    ensures forall m :: m != n ==> (m in Add(t, n, x).amount <==> m in t.amount)
    ensures forall m :: m != n && m in t.amount ==> Add(t, n, x).amount[m] == t.amount[m]
    ensures n in Add(t, n, x).amount <==> n in t.amount || x > 0.0
  {
  }

  function AmountOf(t: Tally): string -> real {
    n => if n in t.amount then t.amount[n] else 0.0
  }

  /** The sum of a tally's values. */
  function Total(t: Tally): real {
    SumOf(t.names, AmountOf(t))
  }

  /** A tally's total grows by exactly the positive part of each contribution. */
  lemma AddTotal(t: Tally, n: string, x: real)
    requires Valid(t)
    ensures Total(Add(t, n, x)) == Total(t) + Positive(x)
  {
    var r := Add(t, n, x);
    AddEffect(t, n, x);
    if x > 0.0 {
      if n in t.amount {
        SumOfUpdate(t.names, n, AmountOf(t), AmountOf(r), x);
      } else {
        assert forall i :: 0 <= i < |t.names| ==> t.names[i] != n;
        SumOfCongruent(t.names, AmountOf(t), AmountOf(r));
        SumOfAppend(t.names, [n], AmountOf(r));
        SumOfSingleton(n, AmountOf(r));
      }
    }
  }

  /** A tally after the contributions `f` of the given items, under their names, first to last. */
  function TallyFold<T>(t: Tally, es: seq<T>, name: T -> string, f: T -> real): Tally {
    if es == [] then t else Add(TallyFold(t, es[..|es| - 1], name, f), name(es[|es| - 1]), f(es[|es| - 1]))
  }

  function PositivePart<T>(f: T -> real): T -> real {
    x => Positive(f(x))
  }

  /** A tally keeps its shape and grows by the positive contributions only. */
  lemma {:induction false} TallyFoldTotal<T>(t: Tally, es: seq<T>, name: T -> string, f: T -> real)
    requires Valid(t)
    ensures Valid(TallyFold(t, es, name, f))
    ensures Total(TallyFold(t, es, name, f)) == Total(t) + SumOf(es, PositivePart(f))
  {
    if es != [] {
      var init, x := es[..|es| - 1], es[|es| - 1];
      TallyFoldTotal(t, init, name, f);
      AddEffect(TallyFold(t, init, name, f), name(x), f(x));
      AddTotal(TallyFold(t, init, name, f), name(x), f(x));
    }
  }

  /** A name is a key exactly when it was one before or one of its items
      contributes a positive amount. */
  lemma {:induction false} TallyFoldKeys<T>(t: Tally, es: seq<T>, name: T -> string, f: T -> real, n: string)
    ensures n in TallyFold(t, es, name, f).amount <==>
      n in t.amount || exists x :: x in es && name(x) == n && f(x) > 0.0
  {
    if es != [] {
      var init := es[..|es| - 1];
      TallyFoldKeys(t, init, name, f, n);
      AddEffect(TallyFold(t, init, name, f), name(es[|es| - 1]), f(es[|es| - 1]));
      assert es == init + [es[|es| - 1]];
    }
  }

  /** With no negative contribution, the tally's total is the plain sum. */
  lemma NonNegativeTotal<T>(es: seq<T>, name: T -> string, f: T -> real)
    requires forall i :: 0 <= i < |es| ==> f(es[i]) >= 0.0
    ensures Total(TallyFold(NoTally, es, name, f)) == SumOf(es, f)
  {
    TallyFoldTotal(NoTally, es, name, f);
    SumOfCongruent(es, PositivePart(f), f);
    assert Total(NoTally) == 0.0;
  }
}
