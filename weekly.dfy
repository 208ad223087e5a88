/** One week's summary and how each entry updates it
    (src/report/generator.py, lines 181-195 and 219-301). */
module Weekly {
  import opened Seqs
  import opened Timestamps
  import Converters
  import opened Entries
  import opened Tallies
  import opened Details

  datatype WeekSummary = WeekSummary(
    cardio: real,
    strength: real,
    distance: real,
    reps: int,
    volume: real,
    distanceBy: Tally,
    volumeBy: Tally,
    details: map<string, ExerciseDetail>,
    workouts: Timeline)

  /** Lines 185-195: a fresh summary. */
  const EmptySummary := WeekSummary(0.0, 0.0, 0.0, 0, 0.0, NoTally, NoTally, map[], map[])

  /** Line 231: the stored weight goes through `convert_units` once more,
      with `to_metric` set to the report's own unit choice. */
  function DisplayWeight(c: Cleaned, useMetric: bool): real {
    Converters.ConvertUnits(c.weight, "weight", useMetric).0
  }

  function DisplayUnit(useMetric: bool): string {
    Converters.ConvertUnits(0.0, "weight", useMetric).1
  }

  /** Lines 285-286: metres to kilometres, then through `convert_units`. */
  function DistanceOf(useMetric: bool): Cleaned -> real {
    (c: Cleaned) => Converters.ConvertUnits(c.distanceM / 1000.0, "distance", useMetric).0
  }

  /** Lines 274 and 296: displayed weight times reps. */
  function VolumeOf(useMetric: bool): Cleaned -> real {
    (c: Cleaned) => DisplayWeight(c, useMetric) * c.reps as real
  }

  function RepsOf(c: Cleaned): real {
    c.reps as real
  }

  /** Lines 250-251: only cardio entries add to the cardio time. */
  function CardioSeconds(c: Cleaned): real {
    if c.isCardio then c.duration else 0.0
  }

  function Named(n: string): Cleaned -> bool {
    (c: Cleaned) => c.exercise == n
  }

  /** Lines 267-273. */
  function SetOf(c: Cleaned, useMetric: bool): SetRecord {
    SetRecord(DisplayWeight(c, useMetric), c.reps, IsTrueText(c.isWarmup), c.duration, c.isCardio)
  }

  /** Lines 234-243. */
  function RecordOf(c: Cleaned, useMetric: bool): WorkoutRecord {
    WorkoutRecord(c.exercise, DisplayWeight(c, useMetric), DisplayUnit(useMetric), c.reps,
                  IsTrueText(c.isWarmup), ClockMinute(c.at), c.duration, c.isCardio)
  }

  function SetsOf(es: seq<Cleaned>, useMetric: bool): seq<SetRecord> {
    if es == [] then [] else SetsOf(es[..|es| - 1], useMetric) + [SetOf(es[|es| - 1], useMetric)]
  }

  /** Lines 224-301 for one entry: timeline, totals, exercise detail and the
      per-exercise tallies. */
  function Step(s: WeekSummary, c: Cleaned, useMetric: bool): WeekSummary {
    var distance := DistanceOf(useMetric)(c);
    var volume := VolumeOf(useMetric)(c);
    var detail := if c.exercise in s.details then s.details[c.exercise] else NewDetail(c.isCardio);
    WeekSummary(
      s.cardio + CardioSeconds(c),
      s.strength,
      s.distance + distance,
      s.reps + c.reps,
      s.volume + volume,
      Add(s.distanceBy, c.exercise, distance),
      Add(s.volumeBy, c.exercise, volume),
      s.details[c.exercise := AddSet(detail, SetOf(c, useMetric))],
      AddRecord(s.workouts, MinuteKey(c.at), RecordOf(c, useMetric)))
  }

  /** A summary after the given entries, first to last. */
  function StatsFold(s: WeekSummary, es: seq<Cleaned>, useMetric: bool): WeekSummary {
    if es == [] then s else Step(StatsFold(s, es[..|es| - 1], useMetric), es[|es| - 1], useMetric)
  }

  lemma StatsFoldLast(s: WeekSummary, es: seq<Cleaned>, useMetric: bool)
    requires es != []
    ensures StatsFold(s, es, useMetric) == Step(StatsFold(s, es[..|es| - 1], useMetric), es[|es| - 1], useMetric)
  {
  }

  lemma {:induction false} StatsFoldAppend(s: WeekSummary, a: seq<Cleaned>, b: seq<Cleaned>, useMetric: bool)
    ensures StatsFold(s, a + b, useMetric) == StatsFold(StatsFold(s, a, useMetric), b, useMetric)
    decreases |b|
  {
    if b == [] {
      assert a + b == a;
    } else {
      assert (a + b)[..|a + b| - 1] == a + b[..|b| - 1];
      StatsFoldAppend(s, a, b[..|b| - 1], useMetric);
    }
  }

  /** Lines 248-251, 287 and 297: the week's totals are sums over its
      entries; the strength time is not touched here. */
  lemma {:induction false} StatsFoldTotals(s: WeekSummary, es: seq<Cleaned>, useMetric: bool)
    ensures StatsFold(s, es, useMetric).reps as real == s.reps as real + SumOf(es, RepsOf)
    ensures StatsFold(s, es, useMetric).cardio == s.cardio + SumOf(es, CardioSeconds)
    ensures StatsFold(s, es, useMetric).distance == s.distance + SumOf(es, DistanceOf(useMetric))
    ensures StatsFold(s, es, useMetric).volume == s.volume + SumOf(es, VolumeOf(useMetric))
    ensures StatsFold(s, es, useMetric).strength == s.strength
  {
    if es != [] {
      StatsFoldTotals(s, es[..|es| - 1], useMetric);
    }
  }

  function ExerciseName(c: Cleaned): string {
    c.exercise
  }

  /** Lines 289-301: the two per-exercise tallies receive each entry's
      distance and volume under its exercise name. */
  lemma {:induction false} StatsFoldTallies(s: WeekSummary, es: seq<Cleaned>, useMetric: bool)
    ensures StatsFold(s, es, useMetric).distanceBy == TallyFold(s.distanceBy, es, ExerciseName, DistanceOf(useMetric))
    ensures StatsFold(s, es, useMetric).volumeBy == TallyFold(s.volumeBy, es, ExerciseName, VolumeOf(useMetric))
  {
    if es != [] {
      StatsFoldTallies(s, es[..|es| - 1], useMetric);
    }
  }

  /** Lines 253-282 for one entry: its set goes into the detail record of
      its exercise, created on first sight. */
  function AddToDetails(ds: map<string, ExerciseDetail>, c: Cleaned, useMetric: bool): map<string, ExerciseDetail> {
    var detail := if c.exercise in ds then ds[c.exercise] else NewDetail(c.isCardio);
    ds[c.exercise := AddSet(detail, SetOf(c, useMetric))]
  }

  function DetailsFold(ds: map<string, ExerciseDetail>, es: seq<Cleaned>, useMetric: bool): map<string, ExerciseDetail> {
    if es == [] then ds else AddToDetails(DetailsFold(ds, es[..|es| - 1], useMetric), es[|es| - 1], useMetric)
  }

  lemma {:induction false} StatsFoldDetails(s: WeekSummary, es: seq<Cleaned>, useMetric: bool)
    ensures StatsFold(s, es, useMetric).details == DetailsFold(s.details, es, useMetric)
  {
    if es != [] {
      StatsFoldDetails(s, es[..|es| - 1], useMetric);
    }
  }

  predicate AllConsistent(ds: map<string, ExerciseDetail>) {
    forall n :: n in ds ==> Consistent(ds[n])
  }

  lemma AddToDetailsConsistent(ds: map<string, ExerciseDetail>, c: Cleaned, useMetric: bool)
    requires AllConsistent(ds)
    ensures AllConsistent(AddToDetails(ds, c, useMetric))
  {
    var detail := if c.exercise in ds then ds[c.exercise] else NewDetail(c.isCardio);
    AddSetConsistent(detail, SetOf(c, useMetric));
  }

  /** Every detail record stays consistent. */
  lemma {:induction false} DetailsFoldConsistent(ds: map<string, ExerciseDetail>, es: seq<Cleaned>, useMetric: bool)
    requires AllConsistent(ds)
    ensures AllConsistent(DetailsFold(ds, es, useMetric))
  {
    if es != [] {
      DetailsFoldConsistent(ds, es[..|es| - 1], useMetric);
      AddToDetailsConsistent(DetailsFold(ds, es[..|es| - 1], useMetric), es[|es| - 1], useMetric);
    }
  }

  /** One entry touches only its own exercise's record. */
  lemma AddToDetailsAt(ds: map<string, ExerciseDetail>, c: Cleaned, useMetric: bool, n: string)
    ensures n in AddToDetails(ds, c, useMetric) <==> n in ds || n == c.exercise
    ensures n == c.exercise ==> AddToDetails(ds, c, useMetric)[n].sets == (if n in ds then ds[n].sets else []) + [SetOf(c, useMetric)]
    ensures n == c.exercise ==> AddToDetails(ds, c, useMetric)[n].isCardio == (if n in ds then ds[n].isCardio else c.isCardio)
    ensures n != c.exercise && n in ds ==> AddToDetails(ds, c, useMetric)[n] == ds[n]
  {
  }

  /** The sets of an exercise's detail record are that exercise's entries, in order. */
  lemma {:induction false} DetailsFoldSets(ds: map<string, ExerciseDetail>, es: seq<Cleaned>, useMetric: bool, n: string)
    requires n in DetailsFold(ds, es, useMetric)
    ensures DetailsFold(ds, es, useMetric)[n].sets == BaseSets(ds, n) + SetsOf(Filter(es, Named(n)), useMetric)
    decreases |es|, 1
  {
    if es != [] {
      if n == es[|es| - 1].exercise {
        DetailsFoldSetsOwn(ds, es, useMetric, n);
      } else {
        DetailsFoldSetsOther(ds, es, useMetric, n);
      }
    }
  }

  lemma {:induction false} DetailsFoldSetsOwn(ds: map<string, ExerciseDetail>, es: seq<Cleaned>, useMetric: bool, n: string)
    requires es != [] && n == es[|es| - 1].exercise
    ensures DetailsFold(ds, es, useMetric)[n].sets == BaseSets(ds, n) + SetsOf(Filter(es, Named(n)), useMetric)
    decreases |es|, 0
  {
    var init, c := es[..|es| - 1], es[|es| - 1];
    LastEntrySets(ds, es, useMetric);
    NamedSetsLast(es, useMetric);
    FoldBaseSets(ds, init, useMetric, n);
    var base, earlier, last := BaseSets(ds, n), SetsOf(Filter(init, Named(n)), useMetric), [SetOf(c, useMetric)];
    assert (base + earlier) + last == base + (earlier + last);
  }

  /** The last entry appends its set to its own exercise's record. */
  lemma LastEntrySets(ds: map<string, ExerciseDetail>, es: seq<Cleaned>, useMetric: bool)
    requires es != []
    ensures var c := es[|es| - 1];
      DetailsFold(ds, es, useMetric)[c.exercise].sets
        == BaseSets(DetailsFold(ds, es[..|es| - 1], useMetric), c.exercise) + [SetOf(c, useMetric)]
  {
    var init, c := es[..|es| - 1], es[|es| - 1];
    AddToDetailsAt(DetailsFold(ds, init, useMetric), c, useMetric, c.exercise);
  }

  /** The sets of the last entry's exercise end with the last entry's set. */
  lemma NamedSetsLast(es: seq<Cleaned>, useMetric: bool)
    requires es != []
    ensures var c := es[|es| - 1];
      SetsOf(Filter(es, Named(c.exercise)), useMetric)
        == SetsOf(Filter(es[..|es| - 1], Named(c.exercise)), useMetric) + [SetOf(c, useMetric)]
  {
    var c := es[|es| - 1];
    FilterLast(es, Named(c.exercise));
    assert Named(c.exercise)(c);
    SetsOfLast(Filter(es[..|es| - 1], Named(c.exercise)), c, useMetric);
  }

  /** The sets held for `n` after a fold, whether or not `n` has a record yet. */
  lemma {:induction false} FoldBaseSets(ds: map<string, ExerciseDetail>, es: seq<Cleaned>, useMetric: bool, n: string)
    ensures BaseSets(DetailsFold(ds, es, useMetric), n) == BaseSets(ds, n) + SetsOf(Filter(es, Named(n)), useMetric)
    decreases |es|, 2
  {
    if n in DetailsFold(ds, es, useMetric) {
      DetailsFoldSets(ds, es, useMetric, n);
    } else {
      DetailsFoldKeys(ds, es, useMetric);
      FilterNone(es, Named(n));
    }
  }

  lemma {:induction false} DetailsFoldSetsOther(ds: map<string, ExerciseDetail>, es: seq<Cleaned>, useMetric: bool, n: string)
    requires es != [] && n != es[|es| - 1].exercise && n in DetailsFold(ds, es, useMetric)
    ensures DetailsFold(ds, es, useMetric)[n].sets == BaseSets(ds, n) + SetsOf(Filter(es, Named(n)), useMetric)
    decreases |es|, 0
  {
    var init, c := es[..|es| - 1], es[|es| - 1];
    var r := DetailsFold(ds, init, useMetric);
    assert DetailsFold(ds, es, useMetric) == AddToDetails(r, c, useMetric);
    AddToDetailsAt(r, c, useMetric, n);
    assert n in r;
    assert DetailsFold(ds, es, useMetric)[n] == r[n];
    FilterLast(es, Named(n));
    assert !Named(n)(c);
    assert Filter(es, Named(n)) == Filter(init, Named(n));
    DetailsFoldSets(ds, init, useMetric, n);
  }

  function BaseSets(ds: map<string, ExerciseDetail>, n: string): seq<SetRecord> {
    if n in ds then ds[n].sets else []
  }

  lemma SetsOfLast(es: seq<Cleaned>, c: Cleaned, useMetric: bool)
    ensures SetsOf(es + [c], useMetric) == SetsOf(es, useMetric) + [SetOf(c, useMetric)]
  {
    assert (es + [c])[..|es + [c]| - 1] == es;
  }

  /** A new detail record takes its cardio flag from its exercise's first entry. */
  lemma {:induction false} DetailsFoldCardioFlag(ds: map<string, ExerciseDetail>, es: seq<Cleaned>, useMetric: bool, n: string)
    requires n in DetailsFold(ds, es, useMetric) && n !in ds
    ensures Filter(es, Named(n)) != []
    ensures DetailsFold(ds, es, useMetric)[n].isCardio == Filter(es, Named(n))[0].isCardio
  {
    var init, c := es[..|es| - 1], es[|es| - 1];
    var r := DetailsFold(ds, init, useMetric);
    AddToDetailsAt(r, c, useMetric, n);
    assert es == init + [c];
    FilterAppend(init, [c], Named(n));
    assert [c][..0] == [];
    if n in r {
      DetailsFoldCardioFlag(ds, init, useMetric, n);
    } else {
      DetailsFoldKeys(ds, init, useMetric);
      FilterNone(init, Named(n));
    }
  }

  /** There is one detail record per exercise name seen. */
  lemma {:induction false} DetailsFoldKeys(ds: map<string, ExerciseDetail>, es: seq<Cleaned>, useMetric: bool)
    ensures DetailsFold(ds, es, useMetric).Keys == ds.Keys + (set c | c in es :: c.exercise)
  {
    if es != [] {
      var init, c := es[..|es| - 1], es[|es| - 1];
      DetailsFoldKeys(ds, init, useMetric);
      assert es == init + [c];
      assert (set x | x in es :: x.exercise) == (set x | x in init :: x.exercise) + {c.exercise};
    }
  }

  /** Lines 226-245: every entry adds one record to the timeline. */
  lemma {:induction false} StatsFoldWorkouts(s: WeekSummary, es: seq<Cleaned>, useMetric: bool)
    ensures RecordCount(StatsFold(s, es, useMetric).workouts) == RecordCount(s.workouts) + |es|
  {
    if es != [] {
      var init, c := es[..|es| - 1], es[|es| - 1];
      StatsFoldWorkouts(s, init, useMetric);
      var r := StatsFold(s, init, useMetric);
      assert StatsFold(s, es, useMetric).workouts == AddRecord(r.workouts, MinuteKey(c.at), RecordOf(c, useMetric));
      AddRecordCount(r.workouts, MinuteKey(c.at), RecordOf(c, useMetric));
    }
  }
}
