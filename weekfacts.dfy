/** What each weekly summary returned by `summarize_by_week` holds, stated
    against the cleaned entries themselves (src/report/generator.py, lines 181-301). */
module WeekFacts {
  import opened Seqs
  import opened Timestamps
  import Converters
  import opened Entries
  import opened Sessions
  import opened Days
  import opened Tallies
  import opened Details
  import opened Weekly
  import opened Summarize

  /** There is one summary per week key of the entries, and no other. */
  lemma WeeklyKeys(cs: seq<Cleaned>, useMetric: bool)
    ensures WeeklySummaries(cs, useMetric).Keys == (set c | c in cs :: WeekOf(Day(c)))
  {
    var t := GroupByDay(cs);
    InitWeeksKeys(t.order, t.byDay);
    GroupByDayOrder(cs);
    GroupByDayWellFiled(cs);
    var lhs := set d | d in t.order && d in t.byDay :: t.byDay[d].week;
    forall k | k in lhs
      ensures k in (set c | c in cs :: WeekOf(Day(c)))
    {
      var d :| d in t.order && d in t.byDay && t.byDay[d].week == k;
      var c :| c in cs && Day(c) == d;
    }
    forall c | c in cs
      ensures WeekOf(Day(c)) in lhs
    {
      assert Day(c) in t.byDay;
    }
  }

  /** Lines 248-251, 287 and 297: a week's reps, cardio time, distance and
      volume are the sums over that week's entries. */
  lemma WeekTotals(cs: seq<Cleaned>, useMetric: bool, w: WeekKey)
    requires w in WeeklySummaries(cs, useMetric)
    ensures WeeklySummaries(cs, useMetric)[w].reps as real == SumOf(Filter(cs, InWeek(w)), RepsOf)
    ensures WeeklySummaries(cs, useMetric)[w].cardio == SumOf(Filter(cs, InWeek(w)), CardioSeconds)
    ensures WeeklySummaries(cs, useMetric)[w].distance == SumOf(Filter(cs, InWeek(w)), DistanceOf(useMetric))
    ensures WeeklySummaries(cs, useMetric)[w].volume == SumOf(Filter(cs, InWeek(w)), VolumeOf(useMetric))
  {
    var t := GroupByDay(cs);
    WeeklyLink(cs, useMetric, w);
    var base := EmptySummary.(strength := SumOf(Filter(t.order, DayInWeek(t.byDay, w)), StrengthOf(t.byDay)));
    StatsFoldTotals(base, Filter(Flat(t.order, t.byDay), InWeek(w)), useMetric);
    WeekSum(cs, w, RepsOf);
    WeekSum(cs, w, CardioSeconds);
    WeekSum(cs, w, DistanceOf(useMetric));
    WeekSum(cs, w, VolumeOf(useMetric));
  }

  /** The days of a week, each once, in the order they were first seen. */
  function WeekDays(cs: seq<Cleaned>, w: WeekKey): seq<int> {
    Filter(GroupByDay(cs).order, DayInWeek(GroupByDay(cs).byDay, w))
  }

  /** The strength time of one day: its sessions, built from its own entries. */
  function DayStrength(cs: seq<Cleaned>): int -> real {
    d => SessionsDuration(Sessionize(Filter(cs, OnDay(d))))
  }

  /** The week's days are exactly the local days of its entries, each listed once. */
  lemma WeekDaysFacts(cs: seq<Cleaned>, w: WeekKey)
    ensures Distinct(WeekDays(cs, w))
    ensures forall d :: d in WeekDays(cs, w) <==> WeekOf(d) == w && exists c :: c in cs && Day(c) == d
  {
    var t := GroupByDay(cs);
    GroupByDayOrder(cs);
    GroupByDayWellFiled(cs);
    FilterDistinct(t.order, DayInWeek(t.byDay, w));
    forall d
      ensures d in WeekDays(cs, w) <==> WeekOf(d) == w && exists c :: c in cs && Day(c) == d
    {
      if WeekOf(d) == w && exists c :: c in cs && Day(c) == d {
        var c :| c in cs && Day(c) == d;
        assert Day(c) in (set x | x in cs :: Day(x));
      }
      if d in WeekDays(cs, w) {
        assert d in t.byDay.Keys;
        var c :| c in cs && Day(c) == d;
      }
    }
  }

  /** Lines 197-217: a week's strength time is the sum, over its days, of
      the durations of the sessions built from each day's entries. */
  lemma WeekStrength(cs: seq<Cleaned>, useMetric: bool, w: WeekKey)
    requires w in WeeklySummaries(cs, useMetric)
    ensures WeeklySummaries(cs, useMetric)[w].strength == SumOf(WeekDays(cs, w), DayStrength(cs))
  {
    var t := GroupByDay(cs);
    WeeklyLink(cs, useMetric, w);
    var base := EmptySummary.(strength := SumOf(Filter(t.order, DayInWeek(t.byDay, w)), StrengthOf(t.byDay)));
    StatsFoldTotals(base, Filter(Flat(t.order, t.byDay), InWeek(w)), useMetric);
    var days := WeekDays(cs, w);
    forall i | 0 <= i < |days|
      ensures StrengthOf(t.byDay)(days[i]) == DayStrength(cs)(days[i])
    {
      assert days[i] in days;
      GroupByDayContents(cs, days[i]);
    }
    SumOfCongruent(days, StrengthOf(t.byDay), DayStrength(cs));
  }

  /** Lines 289-301: both tallies list each name once, hold a key exactly
      for the exercises with a positive contribution that week, and add up
      to the positive contributions of the week's entries. */
  lemma WeekTallies(cs: seq<Cleaned>, useMetric: bool, w: WeekKey)
    requires w in WeeklySummaries(cs, useMetric)
    ensures var s := WeeklySummaries(cs, useMetric)[w];
      && Valid(s.distanceBy) && Valid(s.volumeBy)
      && Total(s.distanceBy) == SumOf(Filter(cs, InWeek(w)), PositivePart(DistanceOf(useMetric)))
      && Total(s.volumeBy) == SumOf(Filter(cs, InWeek(w)), PositivePart(VolumeOf(useMetric)))
    ensures forall n :: n in WeeklySummaries(cs, useMetric)[w].distanceBy.amount <==>
      exists c :: c in cs && InWeek(w)(c) && c.exercise == n && DistanceOf(useMetric)(c) > 0.0
    ensures forall n :: n in WeeklySummaries(cs, useMetric)[w].volumeBy.amount <==>
      exists c :: c in cs && InWeek(w)(c) && c.exercise == n && VolumeOf(useMetric)(c) > 0.0
  {
    var t := GroupByDay(cs);
    WeeklyLink(cs, useMetric, w);
    var base := EmptySummary.(strength := SumOf(Filter(t.order, DayInWeek(t.byDay, w)), StrengthOf(t.byDay)));
    var es := Filter(Flat(t.order, t.byDay), InWeek(w));
    StatsFoldTallies(base, es, useMetric);
    assert Valid(NoTally) && Total(NoTally) == 0.0;
    TallyFoldTotal(NoTally, es, ExerciseName, DistanceOf(useMetric));
    TallyFoldTotal(NoTally, es, ExerciseName, VolumeOf(useMetric));
    WeekSum(cs, w, PositivePart(DistanceOf(useMetric)));
    WeekSum(cs, w, PositivePart(VolumeOf(useMetric)));
    FlatIsPermutation(cs);
    assert forall c :: c in Flat(t.order, t.byDay) <==> c in cs by {
      forall c ensures c in Flat(t.order, t.byDay) <==> c in cs {
        assert c in Flat(t.order, t.byDay) <==> c in multiset(Flat(t.order, t.byDay));
      }
    }
    forall n
      ensures n in TallyFold(NoTally, es, ExerciseName, DistanceOf(useMetric)).amount <==>
        exists c :: c in cs && InWeek(w)(c) && c.exercise == n && DistanceOf(useMetric)(c) > 0.0
      ensures n in TallyFold(NoTally, es, ExerciseName, VolumeOf(useMetric)).amount <==>
        exists c :: c in cs && InWeek(w)(c) && c.exercise == n && VolumeOf(useMetric)(c) > 0.0
    {
      TallyFoldKeys(NoTally, es, ExerciseName, DistanceOf(useMetric), n);
      TallyFoldKeys(NoTally, es, ExerciseName, VolumeOf(useMetric), n);
    }
  }

  /** An entry contributes no negative amount when its measurements are non-negative. */
  lemma NonNegativeContributions(c: Cleaned, useMetric: bool)
    requires c.weight >= 0.0 && c.reps >= 0 && c.distanceM >= 0.0
    ensures VolumeOf(useMetric)(c) >= 0.0 && DistanceOf(useMetric)(c) >= 0.0
  {
    Converters.SignPreserved(c.weight, "weight", useMetric);
    Converters.SignPreserved(c.distanceM / 1000.0, "distance", useMetric);
  }

  /** For entries with non-negative measurements, the per-exercise volumes
      add up to the week's volume and the per-exercise distances to its
      distance. */
  lemma WeekTalliesAddUp(cs: seq<Cleaned>, useMetric: bool, w: WeekKey)
    requires w in WeeklySummaries(cs, useMetric)
    requires forall c :: c in cs ==> c.weight >= 0.0 && c.reps >= 0 && c.distanceM >= 0.0
    ensures Total(WeeklySummaries(cs, useMetric)[w].volumeBy) == WeeklySummaries(cs, useMetric)[w].volume
    ensures Total(WeeklySummaries(cs, useMetric)[w].distanceBy) == WeeklySummaries(cs, useMetric)[w].distance
  {
    WeekTallies(cs, useMetric, w);
    WeekTotals(cs, useMetric, w);
    var es := Filter(cs, InWeek(w));
    forall i | 0 <= i < |es|
      ensures PositivePart(VolumeOf(useMetric))(es[i]) == VolumeOf(useMetric)(es[i])
      ensures PositivePart(DistanceOf(useMetric))(es[i]) == DistanceOf(useMetric)(es[i])
    {
      assert es[i] in es;
      NonNegativeContributions(es[i], useMetric);
    }
    SumOfCongruent(es, PositivePart(VolumeOf(useMetric)), VolumeOf(useMetric));
    SumOfCongruent(es, PositivePart(DistanceOf(useMetric)), DistanceOf(useMetric));
  }

  /** The entries of week `w` named `n`, in the order the third pass meets them. */
  function WeekEntriesNamed(cs: seq<Cleaned>, w: WeekKey, n: string): seq<Cleaned> {
    Filter(Filter(Flat(GroupByDay(cs).order, GroupByDay(cs).byDay), InWeek(w)), Named(n))
  }

  /** Lines 253-282: a week has one consistent detail record per exercise
      done that week, and an exercise's set list holds one set per entry of
      that exercise in that week, in table order; those entries are exactly
      the input's entries of that exercise and week, each once. */
  lemma WeekDetails(cs: seq<Cleaned>, useMetric: bool, w: WeekKey)
    requires w in WeeklySummaries(cs, useMetric)
    ensures AllConsistent(WeeklySummaries(cs, useMetric)[w].details)
    ensures WeeklySummaries(cs, useMetric)[w].details.Keys == (set c | c in cs && InWeek(w)(c) :: c.exercise)
    ensures forall n :: n in WeeklySummaries(cs, useMetric)[w].details ==>
      WeeklySummaries(cs, useMetric)[w].details[n].sets == SetsOf(WeekEntriesNamed(cs, w, n), useMetric)
    ensures forall n :: multiset(WeekEntriesNamed(cs, w, n)) == multiset(Filter(Filter(cs, InWeek(w)), Named(n)))
  {
    WeekDetailKeys(cs, useMetric, w);
    WeekDetailSets(cs, useMetric, w);
    WeekEntriesNamedPermutation(cs, w);
  }

  lemma WeekDetailKeys(cs: seq<Cleaned>, useMetric: bool, w: WeekKey)
    requires w in WeeklySummaries(cs, useMetric)
    ensures AllConsistent(WeeklySummaries(cs, useMetric)[w].details)
    ensures WeeklySummaries(cs, useMetric)[w].details.Keys == (set c | c in cs && InWeek(w)(c) :: c.exercise)
  {
    var t := GroupByDay(cs);
    WeeklyLink(cs, useMetric, w);
    var base := EmptySummary.(strength := SumOf(Filter(t.order, DayInWeek(t.byDay, w)), StrengthOf(t.byDay)));
    var es := Filter(Flat(t.order, t.byDay), InWeek(w));
    StatsFoldDetails(base, es, useMetric);
    DetailsFoldConsistent(map[], es, useMetric);
    DetailsFoldKeys(map[], es, useMetric);
    FlatIsPermutation(cs);
    forall c
      ensures c in es <==> c in cs && InWeek(w)(c)
    {
      assert c in Flat(t.order, t.byDay) <==> c in multiset(Flat(t.order, t.byDay));
    }
  }

  lemma WeekDetailSets(cs: seq<Cleaned>, useMetric: bool, w: WeekKey)
    requires w in WeeklySummaries(cs, useMetric)
    ensures forall n :: n in WeeklySummaries(cs, useMetric)[w].details ==>
      WeeklySummaries(cs, useMetric)[w].details[n].sets == SetsOf(WeekEntriesNamed(cs, w, n), useMetric)
  {
    var t := GroupByDay(cs);
    WeeklyLink(cs, useMetric, w);
    var base := EmptySummary.(strength := SumOf(Filter(t.order, DayInWeek(t.byDay, w)), StrengthOf(t.byDay)));
    var es := Filter(Flat(t.order, t.byDay), InWeek(w));
    StatsFoldDetails(base, es, useMetric);
    forall n | n in DetailsFold(map[], es, useMetric)
      ensures DetailsFold(map[], es, useMetric)[n].sets == SetsOf(WeekEntriesNamed(cs, w, n), useMetric)
    {
      DetailsFoldSets(map[], es, useMetric, n);
      assert BaseSets(map[], n) == [];
    }
  }

  lemma WeekEntriesNamedPermutation(cs: seq<Cleaned>, w: WeekKey)
    ensures forall n :: multiset(WeekEntriesNamed(cs, w, n)) == multiset(Filter(Filter(cs, InWeek(w)), Named(n)))
  {
    var t := GroupByDay(cs);
    FlatIsPermutation(cs);
    forall n
      ensures multiset(WeekEntriesNamed(cs, w, n)) == multiset(Filter(Filter(cs, InWeek(w)), Named(n)))
    {
      FilterPermutation(Flat(t.order, t.byDay), cs, InWeek(w));
      FilterPermutation(Filter(Flat(t.order, t.byDay), InWeek(w)), Filter(cs, InWeek(w)), Named(n));
    }
  }

  /** Lines 226-245: the timeline of a week holds one record per entry of that week. */
  lemma WeekWorkouts(cs: seq<Cleaned>, useMetric: bool, w: WeekKey)
    requires w in WeeklySummaries(cs, useMetric)
    ensures RecordCount(WeeklySummaries(cs, useMetric)[w].workouts) == |Filter(cs, InWeek(w))|
  {
    var t := GroupByDay(cs);
    WeeklyLink(cs, useMetric, w);
    var base := EmptySummary.(strength := SumOf(Filter(t.order, DayInWeek(t.byDay, w)), StrengthOf(t.byDay)));
    var es := Filter(Flat(t.order, t.byDay), InWeek(w));
    StatsFoldWorkouts(base, es, useMetric);
    EmptyCount();
    WeekSum(cs, w, One);
    SumOfOne(es);
    SumOfOne(Filter(cs, InWeek(w)));
  }
}
