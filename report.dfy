/** `generate_markdown_report` (src/report/generator.py, lines 305-426): the
    report as a sequence of structured lines, one per entry of the `report`
    list; the `.1f`/`.2f` rendering and the final join are not modelled. */
module Report {
  import opened Wrappers
  import opened Ordering
  import opened Timestamps
  import Converters
  import opened Tallies
  import opened Details
  import opened Weekly
  import Seqs

  datatype Line =
    | Title
    | WeekHeading(week: WeekKey)
    | DailyWorkoutsHeading
    | MinuteHeading(minute: int)
    | GroupHeading(exercise: string, sets: nat)
    | SetTableHeader
    | SetTableRule
    | SetRow(index: nat, reps: int, weight: real, weightUnit: string, warmup: bool)
    | Blank
    | ExerciseDetailsHeading
    | ExerciseHeading(exercise: string)
    | WorkingSetsLine(count: nat)
    | WarmupSetsLine(count: nat)
    | DetailRepsLine(reps: int)
    | DetailDurationLine(seconds: real)
    | MaxWeightLine(weight: real, unit: string)
    | DetailVolumeLine(volume: real, unit: string)
    | ProgressionHeading
    | ProgressionHeader
    | ProgressionRule
    | ProgressionRow(index: nat, weight: real, unit: string, reps: int, warmup: bool)
    | DistanceByHeading
    | DistanceItem(exercise: string, distance: real, unit: string)
    | VolumeByHeading
    | VolumeItem(exercise: string, volume: real, unit: string)
    | StatsHeading
    | TotalTimeLine(seconds: real)
    | StrengthTimeLine(seconds: real)
    | CardioTimeLine(seconds: real)
    | TotalDistanceLine(distance: real, unit: string)
    | TotalRepsLine(reps: int)
    | TotalVolumeLine(volume: real, unit: string)
    | DistanceChangeLine(percent: real)
    | VolumeChangeLine(percent: real)
    | Separator

  /** Line 320. */
  function WeightUnit(useMetric: bool): string {
    if useMetric then "kg" else "lbs"
  }

  /** Line 319: the distance label. */
  function DistanceUnit(useMetric: bool): string
  {
    if useMetric then "km" else "miles"
  }

  /** Line 319 takes the distance label from `convert_units`, whatever the value. */
  lemma DistanceUnitFromConverter(value: real, useMetric: bool)
    ensures Converters.ConvertUnits(value, "distance", useMetric).1 == DistanceUnit(useMetric)
  {
  }

  /** Lines 417-418: the change from the previous week in percent, or 0 when
      the previous value is 0. */
  function PercentChange(current: real, previous: real): real {
    if previous != 0.0 then (current - previous) / previous * 100.0 else 0.0
  }

  /** Applying the change to the previous value gives the current one back. */
  lemma PercentChangeMeaning(current: real, previous: real)
    ensures previous != 0.0 ==> previous + previous * PercentChange(current, previous) / 100.0 == current
    ensures previous == 0.0 ==> PercentChange(current, previous) == 0.0
  {
    if previous != 0.0 {
      var q := (current - previous) / previous;
      assert previous * q == current - previous;
      assert previous * (q * 100.0) / 100.0 == previous * q;
    }
  }

  /** Weeks ordered by their Monday (lines 324-325). */
  predicate WeekLess(a: WeekKey, b: WeekKey) {
    a.monday < b.monday
  }

  lemma WeekLessIsStrictTotal()
    ensures StrictTotalOrder(WeekLess)
  {
  }

  /** The lines that make up the inside of a week section: never a week
      heading, a total-time line, a change line or a separator. */
  predicate Inner(l: Line) {
    !(l.Title? || l.WeekHeading? || l.TotalTimeLine? || l.DistanceChangeLine? || l.VolumeChangeLine? || l.Separator?)
  }

  predicate Body(ls: seq<Line>) {
    forall i :: 0 <= i < |ls| ==> Inner(ls[i])
  }

  lemma BodyAppend(a: seq<Line>, b: seq<Line>)
    requires Body(a) && Body(b)
    ensures Body(a + b)
  {
    forall i | 0 <= i < |a + b| ensures Inner((a + b)[i]) {
      if i < |a| { assert (a + b)[i] == a[i]; } else { assert (a + b)[i] == b[i - |a|]; }
    }
  }

  /** Lines 351-354: one row per set, numbered from 1. */
  function SetRows(records: seq<WorkoutRecord>): seq<Line> {
    if records == [] then []
    else
      var x := records[|records| - 1];
      SetRows(records[..|records| - 1]) + [SetRow(|records|, x.reps, x.weight, x.weightUnit, x.isWarmup)]
  }

  /** The `exercises_by_name` dictionary of lines 339-343. */
  datatype Groups = Groups(names: seq<string>, byName: map<string, seq<WorkoutRecord>>)

  function AddToGroup(g: Groups, x: WorkoutRecord): Groups {
    if x.exercise in g.byName then Groups(g.names, g.byName[x.exercise := g.byName[x.exercise] + [x]])
    else Groups(g.names + [x.exercise], g.byName[x.exercise := [x]])
  }

  function GroupRecords(records: seq<WorkoutRecord>): Groups {
    if records == [] then Groups([], map[])
    else AddToGroup(GroupRecords(records[..|records| - 1]), records[|records| - 1])
  }

  /** The names of a grouping are its keys. */
  lemma {:induction false} GroupRecordsNames(records: seq<WorkoutRecord>)
    ensures forall n :: n in GroupRecords(records).names <==> n in GroupRecords(records).byName
  {
    if records != [] {
      GroupRecordsNames(records[..|records| - 1]);
    }
  }

  /** The position of the first record of exercise `n`, or `|records|` when there is none. */
  function FirstIndex(records: seq<WorkoutRecord>, n: string): (k: nat)
    ensures k <= |records|
    ensures k < |records| ==> records[k].exercise == n
    ensures forall q :: 0 <= q < k ==> records[q].exercise != n
  {
    if records == [] then 0
    else
      var init := records[..|records| - 1];
      var k := FirstIndex(init, n);
      if k < |init| then k
      else if records[|records| - 1].exercise == n then |init|
      else |records|
  }

  function IsNamed(n: string): WorkoutRecord -> bool {
    (x: WorkoutRecord) => x.exercise == n
  }

  /** What a grouping of `records` holds: each name maps to exactly its own
      records in their original order, a name is a key iff some record
      carries it, and the names are the keys, listed once each in order of
      first appearance. */
  ghost predicate GroupsOf(records: seq<WorkoutRecord>, g: Groups) {
    (forall n :: n in g.byName ==> g.byName[n] == Seqs.Filter(records, IsNamed(n)))
    && (forall n :: n in g.byName <==> FirstIndex(records, n) < |records|)
    && (forall n :: n in g.names <==> n in g.byName)
    && Seqs.Distinct(g.names)
    && (forall i, j :: 0 <= i < j < |g.names| ==> FirstIndex(records, g.names[i]) < FirstIndex(records, g.names[j]))
  }

  /** Lines 339-343 build `exercises_by_name` as `GroupsOf` describes. */
  lemma {:induction false} GroupRecordsMeaning(records: seq<WorkoutRecord>)
    ensures GroupsOf(records, GroupRecords(records))
  {
    if records != [] {
      var init := records[..|records| - 1];
      GroupRecordsMeaning(init);
      GroupStep(records, GroupRecords(init));
    }
  }

  /** Adding the last record keeps the description. */
  lemma GroupStep(records: seq<WorkoutRecord>, g: Groups)
    requires records != [] && GroupsOf(records[..|records| - 1], g)
    ensures GroupsOf(records, AddToGroup(g, records[|records| - 1]))
  {
    var init, x := records[..|records| - 1], records[|records| - 1];
    GroupStepValues(records, g);
    GroupStepKeys(records, g);
    GroupStepOrder(records, g);
  }

  /** The first index of a name already seen does not move. */
  lemma FirstIndexKept(records: seq<WorkoutRecord>, n: string)
    requires records != [] && FirstIndex(records[..|records| - 1], n) < |records| - 1
    ensures FirstIndex(records, n) == FirstIndex(records[..|records| - 1], n)
  {
  }

  lemma GroupStepValues(records: seq<WorkoutRecord>, g: Groups)
    requires records != [] && GroupsOf(records[..|records| - 1], g)
    ensures var h := AddToGroup(g, records[|records| - 1]);
      forall n :: n in h.byName ==> h.byName[n] == Seqs.Filter(records, IsNamed(n))
  {
    var init, x := records[..|records| - 1], records[|records| - 1];
    var h := AddToGroup(g, x);
    forall n | n in h.byName ensures h.byName[n] == Seqs.Filter(records, IsNamed(n)) {
      Seqs.FilterLast(records, IsNamed(n));
      if n != x.exercise {
        assert !IsNamed(n)(x);
        assert h.byName[n] == g.byName[n];
      } else if n in g.byName {
        assert IsNamed(n)(x);
      } else {
        assert IsNamed(n)(x);
        Seqs.FilterNone(init, IsNamed(n));
      }
    }
  }

  lemma GroupStepKeys(records: seq<WorkoutRecord>, g: Groups)
    requires records != [] && GroupsOf(records[..|records| - 1], g)
    ensures var h := AddToGroup(g, records[|records| - 1]);
      (forall n :: n in h.byName <==> FirstIndex(records, n) < |records|)
      && (forall n :: n in h.names <==> n in h.byName)
  {
  }

  lemma GroupStepOrder(records: seq<WorkoutRecord>, g: Groups)
    requires records != [] && GroupsOf(records[..|records| - 1], g)
    ensures var h := AddToGroup(g, records[|records| - 1]);
      Seqs.Distinct(h.names)
      && (forall i, j :: 0 <= i < j < |h.names| ==> FirstIndex(records, h.names[i]) < FirstIndex(records, h.names[j]))
  {
    var init, x := records[..|records| - 1], records[|records| - 1];
    forall i | 0 <= i < |g.names| ensures FirstIndex(records, g.names[i]) == FirstIndex(init, g.names[i]) < |init| {
      assert g.names[i] in g.names;
      FirstIndexKept(records, g.names[i]);
    }
    if x.exercise !in g.byName {
      assert FirstIndex(records, x.exercise) == |init|;
      assert x.exercise !in g.names;
    }
  }

  /** Lines 347-355: one exercise of one minute, as a table of its sets. */
  function GroupBlock(n: string, records: seq<WorkoutRecord>): seq<Line> {
    [GroupHeading(n, |records|), SetTableHeader, SetTableRule] + SetRows(records) + [Blank]
  }

  /** Lines 346-355 for the given names. */
  function GroupLines(g: Groups, names: seq<string>): seq<Line>
    requires forall n :: n in names ==> n in g.byName
  {
    if names == [] then []
    else
      var n := names[|names| - 1];
      GroupLines(g, names[..|names| - 1]) + GroupBlock(n, g.byName[n])
  }

  /** Lines 336-355 for one minute of the timeline. */
  function MinuteBlock(k: int, records: seq<WorkoutRecord>): seq<Line> {
    var g := GroupRecords(records);
    GroupRecordsNames(records);
    [MinuteHeading(k)] + GroupLines(g, g.names)
  }

  /** Lines 335-355 for the given minutes. */
  function MinuteLines(ks: seq<int>, workouts: Timeline): seq<Line>
    requires forall k :: k in ks ==> k in workouts
  {
    if ks == [] then []
    else
      var k := ks[|ks| - 1];
      MinuteLines(ks[..|ks| - 1], workouts) + MinuteBlock(k, workouts[k])
  }

  /** Lines 375-378. */
  function ProgressionRows(sets: seq<SetRecord>, unit: string): seq<Line> {
    if sets == [] then []
    else
      var s := sets[|sets| - 1];
      ProgressionRows(sets[..|sets| - 1], unit) + [ProgressionRow(|sets|, s.weight, unit, s.reps, s.isWarmup)]
  }

  /** Lines 361-366: the counters of one exercise; the duration only for cardio. */
  function DetailHead(n: string, d: ExerciseDetail, unit: string): seq<Line> {
    [ExerciseHeading(n), WorkingSetsLine(d.workingSets), WarmupSetsLine(d.warmupSets), DetailRepsLine(d.totalReps)]
      + (if d.isCardio then [DetailDurationLine(d.totalDuration)] else [])
      + [MaxWeightLine(d.maxWeight, unit), DetailVolumeLine(d.totalVolume, unit),
         ProgressionHeading, ProgressionHeader, ProgressionRule]
  }

  /** Lines 360-379 for one exercise. */
  function DetailBlock(n: string, d: ExerciseDetail, unit: string): seq<Line> {
    DetailHead(n, d, unit) + ProgressionRows(d.sets, unit) + [Blank]
  }

  /** Lines 359-379 for the given exercises. */
  function DetailLines(names: seq<string>, details: map<string, ExerciseDetail>, unit: string): seq<Line>
    requires forall n :: n in names ==> n in details
  {
    if names == [] then []
    else
      var n := names[|names| - 1];
      DetailLines(names[..|names| - 1], details, unit) + DetailBlock(n, details[n], unit)
  }

  /** `sorted(summary['Workouts'].items())`, line 335. */
  ghost function SortedMinutes(workouts: Timeline): (ks: seq<int>)
    ensures forall k :: k in ks ==> k in workouts
  {
    IntLessIsStrictTotal();
    SortedSeqFacts(workouts.Keys, IntLess);
    SortedSeq(workouts.Keys, IntLess)
  }

  /** `sorted(summary['Exercise_details'].items())`, line 359. */
  ghost function SortedNames(details: map<string, ExerciseDetail>): (names: seq<string>)
    ensures forall n :: n in names ==> n in details
  {
    StrLessIsStrictTotal();
    SortedSeqFacts(details.Keys, StrLess);
    SortedSeq(details.Keys, StrLess)
  }

  /** Lines 334-379: the timeline in minute order, then the exercises in name order. */
  ghost function DetailedPart(s: WeekSummary, useMetric: bool): seq<Line> {
    [DailyWorkoutsHeading] + MinuteLines(SortedMinutes(s.workouts), s.workouts)
      + [ExerciseDetailsHeading] + DetailLines(SortedNames(s.details), s.details, WeightUnit(useMetric))
  }

  /** Lines 384-385, in the tally's insertion order. */
  function DistanceItems(t: Tally, names: seq<string>, unit: string): seq<Line> {
    if names == [] then []
    else
      var n := names[|names| - 1];
      DistanceItems(t, names[..|names| - 1], unit) + [DistanceItem(n, AmountOf(t)(n), unit)]
  }

  /** Lines 390-391, in the tally's insertion order. */
  function VolumeItems(t: Tally, names: seq<string>, unit: string): seq<Line> {
    if names == [] then []
    else
      var n := names[|names| - 1];
      VolumeItems(t, names[..|names| - 1], unit) + [VolumeItem(n, AmountOf(t)(n), unit)]
  }

  /** Lines 383-386: the distance list, shown only when the tally is not empty. */
  function DistancePart(t: Tally, useMetric: bool): seq<Line> {
    if |t.amount| > 0 then [DistanceByHeading] + DistanceItems(t, t.names, DistanceUnit(useMetric)) + [Blank]
    else []
  }

  /** Lines 388-392: the volume list, shown only when the tally is not empty. */
  function VolumePart(t: Tally, useMetric: bool): seq<Line> {
    if |t.amount| > 0 then [VolumeByHeading] + VolumeItems(t, t.names, WeightUnit(useMetric)) + [Blank]
    else []
  }

  /** Lines 382-392. */
  function SummaryPart(s: WeekSummary, useMetric: bool): seq<Line> {
    DistancePart(s.distanceBy, useMetric) + VolumePart(s.volumeBy, useMetric)
  }

  /** Line 400: the total workout time of a week. */
  function TotalSeconds(s: WeekSummary): real {
    s.cardio + s.strength
  }

  /** Lines 395-410. */
  function StatsPart(s: WeekSummary, useMetric: bool): seq<Line> {
    [StatsHeading,
     TotalTimeLine(TotalSeconds(s)),
     StrengthTimeLine(s.strength),
     CardioTimeLine(s.cardio),
     TotalDistanceLine(s.distance, DistanceUnit(useMetric)),
     TotalRepsLine(s.reps),
     TotalVolumeLine(s.volume, WeightUnit(useMetric))]
  }

  /** Lines 413-421: change lines only when there is a previous week. */
  function ChangePart(s: WeekSummary, previous: Option<WeekSummary>): seq<Line> {
    match previous
    case None => []
    case Some(p) => [DistanceChangeLine(PercentChange(s.distance, p.distance)),
                     VolumeChangeLine(PercentChange(s.volume, p.volume))]
  }

  /** The blocks one week contributes, in the order lines 330-424 append them. */
  datatype Block =
    | HeadingBlock(week: WeekKey)
    | DetailedBlock(summary: WeekSummary, useMetric: bool)
    | SummaryBlock(summary: WeekSummary, useMetric: bool)
    | StatsBlock(summary: WeekSummary, useMetric: bool)
    | ChangeBlock(summary: WeekSummary, previous: Option<WeekSummary>)
    | SeparatorBlock

  ghost function BlockLines(b: Block): seq<Line> {
    match b
    case HeadingBlock(w) => [WeekHeading(w)]
    case DetailedBlock(s, useMetric) => DetailedPart(s, useMetric)
    case SummaryBlock(s, useMetric) => SummaryPart(s, useMetric)
    case StatsBlock(s, useMetric) => StatsPart(s, useMetric)
    case ChangeBlock(s, previous) => ChangePart(s, previous)
    case SeparatorBlock => [Separator]
  }

  /** Heading, the body of the chosen format, statistics, changes, separator. */
  function SectionBlocks(w: WeekKey, s: WeekSummary, previous: Option<WeekSummary>, useMetric: bool, detailed: bool): seq<Block> {
    [HeadingBlock(w), if detailed then DetailedBlock(s, useMetric) else SummaryBlock(s, useMetric),
     StatsBlock(s, useMetric), ChangeBlock(s, previous), SeparatorBlock]
  }

  /** Lines 329-424 for one week. */
  ghost function WeekSection(w: WeekKey, s: WeekSummary, previous: Option<WeekSummary>, useMetric: bool, detailed: bool): seq<Line> {
    Seqs.MapConcat(SectionBlocks(w, s, previous, useMetric, detailed), BlockLines)
  }

  /** A week section spelled out line block by line block. */
  lemma WeekSectionShape(w: WeekKey, s: WeekSummary, previous: Option<WeekSummary>, useMetric: bool, detailed: bool)
    ensures WeekSection(w, s, previous, useMetric, detailed)
         == [WeekHeading(w)]
            + (if detailed then DetailedPart(s, useMetric) else SummaryPart(s, useMetric))
            + StatsPart(s, useMetric)
            + ChangePart(s, previous)
            + [Separator]
  {
    Seqs.MapConcatFive(SectionBlocks(w, s, previous, useMetric, detailed), BlockLines);
  }

  /** The week before position `i` of the sorted weeks, if any. */
  function Previous(ws: seq<WeekKey>, sums: map<WeekKey, WeekSummary>, i: nat): Option<WeekSummary>
    requires i <= |ws| && forall w :: w in ws ==> w in sums
  {
    if i == 0 then None else Some(sums[ws[i - 1]])
  }

  /** Lines 328-424, one section per week for the first `n` weeks; week `i`
      is compared with week `i - 1`. */
  ghost function Sections(ws: seq<WeekKey>, sums: map<WeekKey, WeekSummary>, n: nat, useMetric: bool, detailed: bool): seq<seq<Line>>
    requires n <= |ws| && forall w :: w in ws ==> w in sums
  {
    seq(n, SectionAt(ws, sums, useMetric, detailed))
  }

  /** The section of the week at each position of `ws`. */
  ghost function SectionAt(ws: seq<WeekKey>, sums: map<WeekKey, WeekSummary>, useMetric: bool, detailed: bool): int --> seq<Line>
    requires forall w :: w in ws ==> w in sums
  {
    i requires 0 <= i < |ws| => WeekSection(ws[i], sums[ws[i]], Previous(ws, sums, i), useMetric, detailed)
  }

  /** The lines of the first `n` week sections. */
  ghost function WeekLines(ws: seq<WeekKey>, sums: map<WeekKey, WeekSummary>, n: nat, useMetric: bool, detailed: bool): seq<Line>
    requires n <= |ws| && forall w :: w in ws ==> w in sums
  {
    Seqs.Concat(Sections(ws, sums, n, useMetric, detailed))
  }

  /** Lines 319-426: the title, then the weeks in order of their Monday. */
  ghost function ReportLines(sums: map<WeekKey, WeekSummary>, useMetric: bool, format: string): seq<Line> {
    var ws := SortedWeeks(sums);
    [Title] + WeekLines(ws, sums, |ws|, useMetric, format == "detailed")
  }

  /** `sorted_weeks`, lines 324-325. */
  ghost function SortedWeeks(sums: map<WeekKey, WeekSummary>): (ws: seq<WeekKey>)
    ensures forall w :: w in ws ==> w in sums
  {
    WeekLessIsStrictTotal();
    SortedSeqFacts(sums.Keys, WeekLess);
    SortedSeq(sums.Keys, WeekLess)
  }

  // ---------------------------------------------------------------------
  // Between a week's heading and its statistics there is no week heading,
  // no total-time line and no change line.

  lemma {:induction false} SetRowsBody(records: seq<WorkoutRecord>)
    ensures |SetRows(records)| == |records| && Body(SetRows(records))
  {
    if records != [] {
      var x := records[|records| - 1];
      SetRowsBody(records[..|records| - 1]);
      BodyAppend(SetRows(records[..|records| - 1]), [SetRow(|records|, x.reps, x.weight, x.weightUnit, x.isWarmup)]);
    }
  }

  lemma GroupBlockBody(n: string, records: seq<WorkoutRecord>)
    ensures Body(GroupBlock(n, records))
  {
    SetRowsBody(records);
    BodyAppend([GroupHeading(n, |records|), SetTableHeader, SetTableRule], SetRows(records));
    BodyAppend([GroupHeading(n, |records|), SetTableHeader, SetTableRule] + SetRows(records), [Blank]);
  }

  lemma {:induction false} GroupLinesBody(g: Groups, names: seq<string>)
    requires forall n :: n in names ==> n in g.byName
    ensures Body(GroupLines(g, names))
  {
    if names != [] {
      var n := names[|names| - 1];
      GroupLinesBody(g, names[..|names| - 1]);
      GroupBlockBody(n, g.byName[n]);
      BodyAppend(GroupLines(g, names[..|names| - 1]), GroupBlock(n, g.byName[n]));
    }
  }

  lemma MinuteBlockBody(k: int, records: seq<WorkoutRecord>)
    ensures Body(MinuteBlock(k, records))
  {
    var g := GroupRecords(records);
    GroupRecordsNames(records);
    GroupLinesBody(g, g.names);
    BodyAppend([MinuteHeading(k)], GroupLines(g, g.names));
  }

  lemma {:induction false} MinuteLinesBody(ks: seq<int>, workouts: Timeline)
    requires forall k :: k in ks ==> k in workouts
    ensures Body(MinuteLines(ks, workouts))
  {
    if ks != [] {
      var k := ks[|ks| - 1];
      MinuteLinesBody(ks[..|ks| - 1], workouts);
      MinuteBlockBody(k, workouts[k]);
      BodyAppend(MinuteLines(ks[..|ks| - 1], workouts), MinuteBlock(k, workouts[k]));
    }
  }

  lemma {:induction false} ProgressionRowsBody(sets: seq<SetRecord>, unit: string)
    ensures |ProgressionRows(sets, unit)| == |sets| && Body(ProgressionRows(sets, unit))
  {
    if sets != [] {
      var s := sets[|sets| - 1];
      ProgressionRowsBody(sets[..|sets| - 1], unit);
      BodyAppend(ProgressionRows(sets[..|sets| - 1], unit), [ProgressionRow(|sets|, s.weight, unit, s.reps, s.isWarmup)]);
    }
  }

  lemma DetailBlockBody(n: string, d: ExerciseDetail, unit: string)
    ensures Body(DetailBlock(n, d, unit))
  {
    var head := DetailHead(n, d, unit);
    assert Body(head);
    ProgressionRowsBody(d.sets, unit);
    BodyAppend(head, ProgressionRows(d.sets, unit));
    BodyAppend(head + ProgressionRows(d.sets, unit), [Blank]);
  }

  lemma {:induction false} DetailLinesBody(names: seq<string>, details: map<string, ExerciseDetail>, unit: string)
    requires forall n :: n in names ==> n in details
    ensures Body(DetailLines(names, details, unit))
  {
    if names != [] {
      var n := names[|names| - 1];
      DetailLinesBody(names[..|names| - 1], details, unit);
      DetailBlockBody(n, details[n], unit);
      BodyAppend(DetailLines(names[..|names| - 1], details, unit), DetailBlock(n, details[n], unit));
    }
  }

  /** The detailed format's body. */
  lemma DetailedPartBody(s: WeekSummary, useMetric: bool)
    ensures Body(DetailedPart(s, useMetric))
  {
    var minutes := MinuteLines(SortedMinutes(s.workouts), s.workouts);
    var exercises := DetailLines(SortedNames(s.details), s.details, WeightUnit(useMetric));
    MinuteLinesBody(SortedMinutes(s.workouts), s.workouts);
    DetailLinesBody(SortedNames(s.details), s.details, WeightUnit(useMetric));
    BodyAppend([DailyWorkoutsHeading], minutes);
    BodyAppend([DailyWorkoutsHeading] + minutes, [ExerciseDetailsHeading]);
    BodyAppend([DailyWorkoutsHeading] + minutes + [ExerciseDetailsHeading], exercises);
  }

  lemma {:induction false} DistanceItemsBody(t: Tally, names: seq<string>, unit: string)
    ensures |DistanceItems(t, names, unit)| == |names| && Body(DistanceItems(t, names, unit))
  {
    if names != [] {
      var n := names[|names| - 1];
      DistanceItemsBody(t, names[..|names| - 1], unit);
      BodyAppend(DistanceItems(t, names[..|names| - 1], unit), [DistanceItem(n, AmountOf(t)(n), unit)]);
    }
  }

  lemma {:induction false} VolumeItemsBody(t: Tally, names: seq<string>, unit: string)
    ensures |VolumeItems(t, names, unit)| == |names| && Body(VolumeItems(t, names, unit))
  {
    if names != [] {
      var n := names[|names| - 1];
      VolumeItemsBody(t, names[..|names| - 1], unit);
      BodyAppend(VolumeItems(t, names[..|names| - 1], unit), [VolumeItem(n, AmountOf(t)(n), unit)]);
    }
  }

  /** The summary format's body. */
  lemma SummaryPartBody(s: WeekSummary, useMetric: bool)
    ensures Body(SummaryPart(s, useMetric))
  {
    var d := DistanceItems(s.distanceBy, s.distanceBy.names, DistanceUnit(useMetric));
    var v := VolumeItems(s.volumeBy, s.volumeBy.names, WeightUnit(useMetric));
    DistanceItemsBody(s.distanceBy, s.distanceBy.names, DistanceUnit(useMetric));
    VolumeItemsBody(s.volumeBy, s.volumeBy.names, WeightUnit(useMetric));
    BodyAppend([DistanceByHeading], d);
    BodyAppend([DistanceByHeading] + d, [Blank]);
    BodyAppend([VolumeByHeading], v);
    BodyAppend([VolumeByHeading] + v, [Blank]);
    BodyAppend(DistancePart(s.distanceBy, useMetric), VolumePart(s.volumeBy, useMetric));
  }

  // ---------------------------------------------------------------------
  // Reading the report back: the week headings, change lines and
  // total-time lines it contains, in order.

  function Pick<T>(ls: seq<Line>, f: Line -> Option<T>): (r: seq<T>)
    ensures |r| <= |ls|
  {
    if ls == [] then []
    else Pick(ls[..|ls| - 1], f) + (match f(ls[|ls| - 1]) case Some(x) => [x] case None => [])
  }

  lemma {:induction false} PickAppend<T>(a: seq<Line>, b: seq<Line>, f: Line -> Option<T>)
    ensures Pick(a + b, f) == Pick(a, f) + Pick(b, f)
  {
    if b == [] {
      assert a + b == a;
    } else {
      var b' := b[..|b| - 1];
      assert (a + b)[..|a + b| - 1] == a + b';
      assert (a + b)[|a + b| - 1] == b[|b| - 1];
      PickAppend(a, b', f);
    }
  }

  lemma {:induction false} PickBody<T>(ls: seq<Line>, f: Line -> Option<T>)
    requires Body(ls)
    requires forall l :: Inner(l) ==> f(l).None?
    ensures Pick(ls, f) == []
  {
    if ls != [] {
      assert Inner(ls[|ls| - 1]);
      PickBody(ls[..|ls| - 1], f);
    }
  }

  function HeadingOf(l: Line): Option<WeekKey> {
    if l.WeekHeading? then Some(l.week) else None
  }

  function ChangeOf(l: Line): Option<Line> {
    if l.DistanceChangeLine? || l.VolumeChangeLine? then Some(l) else None
  }

  function TotalTimeOf(l: Line): Option<Line> {
    if l.TotalTimeLine? then Some(l) else None
  }

  /** The parts of one week section, lines 329-424: the body between the
      heading and the statistics contributes nothing. */
  lemma WeekSectionParts<T>(w: WeekKey, s: WeekSummary, previous: Option<WeekSummary>, useMetric: bool, detailed: bool,
                            f: Line -> Option<T>, head: seq<T>, stats: seq<T>, changes: seq<T>)
    requires f(Separator).None?
    requires forall l :: Inner(l) ==> f(l).None?
    requires Pick([WeekHeading(w)], f) == head
    requires Pick(StatsPart(s, useMetric), f) == stats
    requires Pick(ChangePart(s, previous), f) == changes
    ensures Pick(WeekSection(w, s, previous, useMetric, detailed), f) == head + stats + changes
  {
    var st := StatsPart(s, useMetric);
    var ch := ChangePart(s, previous);
    WeekSectionShape(w, s, previous, useMetric, detailed);
    if detailed {
      var part := DetailedPart(s, useMetric);
      DetailedPartBody(s, useMetric);
      PickSkipsBody(w, part, st, ch, f);
    } else {
      var part := SummaryPart(s, useMetric);
      SummaryPartBody(s, useMetric);
      PickSkipsBody(w, part, st, ch, f);
    }
  }

  lemma PickSkipsBody<T>(w: WeekKey, part: seq<Line>, stats: seq<Line>, changes: seq<Line>, f: Line -> Option<T>)
    requires f(Separator).None?
    requires forall l :: Inner(l) ==> f(l).None?
    requires Body(part)
    ensures Pick([WeekHeading(w)] + part + stats + changes + [Separator], f)
         == Pick([WeekHeading(w)], f) + Pick(stats, f) + Pick(changes, f)
  {
    PickBody(part, f);
    PickSection(w, part, stats, changes, f);
    assert Pick([Separator], f) == [];
  }

  /** A week section holds exactly its own week heading. */
  lemma WeekSectionHeading(w: WeekKey, s: WeekSummary, previous: Option<WeekSummary>, useMetric: bool, detailed: bool)
    ensures Pick(WeekSection(w, s, previous, useMetric, detailed), HeadingOf) == [w]
  {
    assert Pick([WeekHeading(w)], HeadingOf) == [w] by { PickOne(WeekHeading(w), HeadingOf); }
    assert Pick(StatsPart(s, useMetric), HeadingOf) == [] by {
      StatsPick(s, useMetric, HeadingOf);
      PickOne(TotalTimeLine(TotalSeconds(s)), HeadingOf);
    }
    assert Pick(ChangePart(s, previous), HeadingOf) == [] by { ChangeNone(s, previous, HeadingOf); }
    WeekSectionParts(w, s, previous, useMetric, detailed, HeadingOf, [w], [], []);
  }

  /** A week section holds the change lines against the previous week, and no others. */
  lemma WeekSectionChanges(w: WeekKey, s: WeekSummary, previous: Option<WeekSummary>, useMetric: bool, detailed: bool)
    ensures Pick(WeekSection(w, s, previous, useMetric, detailed), ChangeOf) == ChangePart(s, previous)
  {
    assert Pick([WeekHeading(w)], ChangeOf) == [] by { PickOne(WeekHeading(w), ChangeOf); }
    assert Pick(StatsPart(s, useMetric), ChangeOf) == [] by {
      StatsPick(s, useMetric, ChangeOf);
      PickOne(TotalTimeLine(TotalSeconds(s)), ChangeOf);
    }
    assert Pick(ChangePart(s, previous), ChangeOf) == ChangePart(s, previous) by { ChangeSelf(s, previous); }
    WeekSectionParts(w, s, previous, useMetric, detailed, ChangeOf, [], [], ChangePart(s, previous));
  }

  /** A week section holds one total-time line, for cardio plus strength time. */
  lemma WeekSectionTotalTime(w: WeekKey, s: WeekSummary, previous: Option<WeekSummary>, useMetric: bool, detailed: bool)
    ensures Pick(WeekSection(w, s, previous, useMetric, detailed), TotalTimeOf) == [TotalTimeLine(TotalSeconds(s))]
  {
    assert Pick([WeekHeading(w)], TotalTimeOf) == [] by { PickOne(WeekHeading(w), TotalTimeOf); }
    assert Pick(StatsPart(s, useMetric), TotalTimeOf) == [TotalTimeLine(TotalSeconds(s))] by {
      StatsPick(s, useMetric, TotalTimeOf);
      PickOne(TotalTimeLine(TotalSeconds(s)), TotalTimeOf);
    }
    assert Pick(ChangePart(s, previous), TotalTimeOf) == [] by { ChangeNone(s, previous, TotalTimeOf); }
    WeekSectionParts(w, s, previous, useMetric, detailed, TotalTimeOf, [], [TotalTimeLine(TotalSeconds(s))], []);
  }

  /** The change block, read back, is itself. */
  lemma ChangeSelf(s: WeekSummary, previous: Option<WeekSummary>)
    ensures Pick(ChangePart(s, previous), ChangeOf) == ChangePart(s, previous)
  {
    ChangePick(s, previous, ChangeOf);
    if previous.Some? {
      var c := ChangePart(s, previous);
      PickOne(c[0], ChangeOf);
      PickOne(c[1], ChangeOf);
      assert c == [c[0]] + [c[1]];
    }
  }

  /** A selector blind to change lines finds nothing in the change block. */
  lemma ChangeNone<T>(s: WeekSummary, previous: Option<WeekSummary>, f: Line -> Option<T>)
    requires forall l: Line :: l.DistanceChangeLine? || l.VolumeChangeLine? ==> f(l).None?
    ensures Pick(ChangePart(s, previous), f) == []
  {
    ChangePick(s, previous, f);
    if previous.Some? {
      var c := ChangePart(s, previous);
      PickOne(c[0], f);
      PickOne(c[1], f);
    }
  }

  lemma PickOne<T>(x: Line, f: Line -> Option<T>)
    ensures Pick([x], f) == match f(x) case Some(y) => [y] case None => []
  {
    assert [x][..0] == [];
  }

  /** The statistics block contributes only through its total-time line. */
  lemma StatsPick<T>(s: WeekSummary, useMetric: bool, f: Line -> Option<T>)
    requires forall l :: Inner(l) ==> f(l).None?
    ensures Pick(StatsPart(s, useMetric), f) == Pick([TotalTimeLine(TotalSeconds(s))], f)
  {
    var st := StatsPart(s, useMetric);
    var tt := [TotalTimeLine(TotalSeconds(s))];
    assert st == [StatsHeading] + tt + st[2..];
    assert Body([StatsHeading]) && Body(st[2..]);
    PickBody([StatsHeading], f);
    PickBody(st[2..], f);
    PickAppend([StatsHeading], tt, f);
    PickAppend([StatsHeading] + tt, st[2..], f);
  }

  /** The change block contributes only through its change lines. */
  lemma ChangePick<T>(s: WeekSummary, previous: Option<WeekSummary>, f: Line -> Option<T>)
    ensures Pick(ChangePart(s, previous), f)
         == if previous.None? then [] else Pick([ChangePart(s, previous)[0]], f) + Pick([ChangePart(s, previous)[1]], f)
  {
    if previous.Some? {
      var c := ChangePart(s, previous);
      assert c == [c[0]] + [c[1]];
      PickAppend([c[0]], [c[1]], f);
    }
  }

  lemma PickSection<T>(w: WeekKey, part: seq<Line>, stats: seq<Line>, changes: seq<Line>, f: Line -> Option<T>)
    requires f(Separator).None?
    ensures Pick([WeekHeading(w)] + part + stats + changes + [Separator], f)
         == Pick([WeekHeading(w)], f) + Pick(part, f) + Pick(stats, f) + Pick(changes, f)
  {
    PickAppend([WeekHeading(w)], part, f);
    PickAppend([WeekHeading(w)] + part, stats, f);
    PickAppend([WeekHeading(w)] + part + stats, changes, f);
    PickAppend([WeekHeading(w)] + part + stats + changes, [Separator], f);
  }

  /** Picking from concatenated parts concatenates the picks of the parts. */
  lemma {:induction false} PickConcat<T>(ss: seq<seq<Line>>, f: Line -> Option<T>, parts: seq<seq<T>>)
    requires |parts| == |ss| && forall i :: 0 <= i < |ss| ==> Pick(ss[i], f) == parts[i]
    ensures Pick(Seqs.Concat(ss), f) == Seqs.Concat(parts)
  {
    if ss != [] {
      var k := |ss| - 1;
      PickConcat(ss[..k], f, parts[..k]);
      PickAppend(Seqs.Concat(ss[..k]), ss[k], f);
    }
  }

  /** The week headings are the weeks, in the order given. */
  lemma WeekLinesHeadings(ws: seq<WeekKey>, sums: map<WeekKey, WeekSummary>, n: nat, useMetric: bool, detailed: bool)
    requires n <= |ws| && forall w :: w in ws ==> w in sums
    ensures Pick(WeekLines(ws, sums, n, useMetric, detailed), HeadingOf) == ws[..n]
  {
    var ss := Sections(ws, sums, n, useMetric, detailed);
    var parts := seq(n, i requires 0 <= i < n => [ws[i]]);
    forall i | 0 <= i < n ensures Pick(ss[i], HeadingOf) == parts[i] {
      WeekSectionHeading(ws[i], sums[ws[i]], Previous(ws, sums, i), useMetric, detailed);
    }
    PickConcat(ss, HeadingOf, parts);
    Seqs.ConcatSingletons(parts, ws[..n]);
  }

  /** One total-time line per week, for that week's cardio plus strength time. */
  lemma WeekLinesTotalTimes(ws: seq<WeekKey>, sums: map<WeekKey, WeekSummary>, n: nat, useMetric: bool, detailed: bool)
    requires n <= |ws| && forall w :: w in ws ==> w in sums
    ensures var p := Pick(WeekLines(ws, sums, n, useMetric, detailed), TotalTimeOf);
      |p| == n && forall i :: 0 <= i < n ==> p[i] == TotalTimeLine(TotalSeconds(sums[ws[i]]))
  {
    var ss := Sections(ws, sums, n, useMetric, detailed);
    var times := seq(n, i requires 0 <= i < n => TotalTimeLine(TotalSeconds(sums[ws[i]])));
    var parts := seq(n, i requires 0 <= i < n => [times[i]]);
    forall i | 0 <= i < n ensures Pick(ss[i], TotalTimeOf) == parts[i] {
      WeekSectionTotalTime(ws[i], sums[ws[i]], Previous(ws, sums, i), useMetric, detailed);
    }
    PickConcat(ss, TotalTimeOf, parts);
    Seqs.ConcatSingletons(parts, times);
  }

  /** Lines `2i-2` and `2i-1` of `p` compare week `i` with week `i-1`. */
  predicate ChangesAgainst(p: seq<Line>, ws: seq<WeekKey>, sums: map<WeekKey, WeekSummary>, i: nat)
    requires 0 < i < |ws| && forall w :: w in ws ==> w in sums
  {
    2 * i - 1 < |p| &&
    p[2 * i - 2] == DistanceChangeLine(PercentChange(sums[ws[i]].distance, sums[ws[i - 1]].distance)) &&
    p[2 * i - 1] == VolumeChangeLine(PercentChange(sums[ws[i]].volume, sums[ws[i - 1]].volume))
  }

  /** The change block of each of the first `n` weeks. */
  function ChangeParts(ws: seq<WeekKey>, sums: map<WeekKey, WeekSummary>, n: nat): seq<seq<Line>>
    requires n <= |ws| && forall w :: w in ws ==> w in sums
  {
    seq(n, i requires 0 <= i < |ws| => ChangePart(sums[ws[i]], Previous(ws, sums, i)))
  }

  /** The change lines of the report are the change blocks of its weeks. */
  lemma WeekLinesChangeParts(ws: seq<WeekKey>, sums: map<WeekKey, WeekSummary>, n: nat, useMetric: bool, detailed: bool)
    requires n <= |ws| && forall w :: w in ws ==> w in sums
    ensures Pick(WeekLines(ws, sums, n, useMetric, detailed), ChangeOf) == Seqs.Concat(ChangeParts(ws, sums, n))
  {
    var ss := Sections(ws, sums, n, useMetric, detailed);
    var parts := ChangeParts(ws, sums, n);
    forall i | 0 <= i < n ensures Pick(ss[i], ChangeOf) == parts[i] {
      WeekSectionChanges(ws[i], sums[ws[i]], Previous(ws, sums, i), useMetric, detailed);
    }
    PickConcat(ss, ChangeOf, parts);
  }

  /** The change blocks hold nothing for the first week and two lines for
      every later one, comparing it with the week before. */
  lemma ChangePartsLines(ws: seq<WeekKey>, sums: map<WeekKey, WeekSummary>, n: nat)
    requires n <= |ws| && forall w :: w in ws ==> w in sums
    ensures var p := Seqs.Concat(ChangeParts(ws, sums, n));
      |p| == (if n == 0 then 0 else 2 * (n - 1)) && forall i :: 0 < i < n ==> ChangesAgainst(p, ws, sums, i)
  {
    var parts := ChangeParts(ws, sums, n);
    forall i | 0 <= i < n
      ensures |parts[i]| == (if i == 0 then 0 else 2)
      ensures 0 < i ==> parts[i] == ChangeLinesAt(ws, sums, i)
    {
      ChangePartAt(ws, sums, n, i);
    }
    Seqs.ConcatPairs(parts);
    var p := Seqs.Concat(parts);
    forall i | 0 < i < n ensures ChangesAgainst(p, ws, sums, i) {
      ChangeLinesAgainst(p, ws, sums, i, parts[i]);
    }
  }

  /** The two change lines of week `i`, against week `i - 1`. */
  function ChangeLinesAt(ws: seq<WeekKey>, sums: map<WeekKey, WeekSummary>, i: nat): (lines: seq<Line>)
    requires 0 < i < |ws| && forall w :: w in ws ==> w in sums
    ensures |lines| == 2
  {
    [DistanceChangeLine(PercentChange(sums[ws[i]].distance, sums[ws[i - 1]].distance)),
     VolumeChangeLine(PercentChange(sums[ws[i]].volume, sums[ws[i - 1]].volume))]
  }

  lemma ChangePartAt(ws: seq<WeekKey>, sums: map<WeekKey, WeekSummary>, n: nat, i: nat)
    requires i < n <= |ws| && forall w :: w in ws ==> w in sums
    ensures i == 0 ==> ChangeParts(ws, sums, n)[i] == []
    ensures 0 < i ==> ChangeParts(ws, sums, n)[i] == ChangeLinesAt(ws, sums, i)
  {
  }

  lemma ChangeLinesAgainst(p: seq<Line>, ws: seq<WeekKey>, sums: map<WeekKey, WeekSummary>, i: nat, part: seq<Line>)
    requires 0 < i < |ws| && forall w :: w in ws ==> w in sums
    requires part == ChangeLinesAt(ws, sums, i)
    requires 2 * i - 1 < |p| && p[2 * i - 2] == part[0] && p[2 * i - 1] == part[1]
    ensures ChangesAgainst(p, ws, sums, i)
  {
  }

  /** No change lines for the first week, two for every later one, comparing
      it with the week before. */
  lemma WeekLinesChanges(ws: seq<WeekKey>, sums: map<WeekKey, WeekSummary>, n: nat, useMetric: bool, detailed: bool)
    requires n <= |ws| && forall w :: w in ws ==> w in sums
    ensures var p := Pick(WeekLines(ws, sums, n, useMetric, detailed), ChangeOf);
      |p| == (if n == 0 then 0 else 2 * (n - 1)) && forall i :: 0 < i < n ==> ChangesAgainst(p, ws, sums, i)
  {
    WeekLinesChangeParts(ws, sums, n, useMetric, detailed);
    ChangePartsLines(ws, sums, n);
  }

  lemma ReportPick<T>(sums: map<WeekKey, WeekSummary>, useMetric: bool, format: string, f: Line -> Option<T>)
    requires f(Title).None?
    ensures var ws := SortedWeeks(sums);
      Pick(ReportLines(sums, useMetric, format), f) == Pick(WeekLines(ws, sums, |ws|, useMetric, format == "detailed"), f)
  {
    var ws := SortedWeeks(sums);
    PickAppend([Title], WeekLines(ws, sums, |ws|, useMetric, format == "detailed"), f);
    PickOne(Title, f);
  }

  /** The report names every week exactly once, in ascending order of its Monday. */
  lemma ReportWeeks(sums: map<WeekKey, WeekSummary>, useMetric: bool, format: string)
    ensures var hs := Pick(ReportLines(sums, useMetric, format), HeadingOf);
      Ascending(hs, WeekLess) && |hs| == |sums| && forall w :: w in hs <==> w in sums
  {
    WeekLessIsStrictTotal();
    SortedSeqFacts(sums.Keys, WeekLess);
    ReportPick(sums, useMetric, format, HeadingOf);
    var ws := SortedWeeks(sums);
    WeekLinesHeadings(ws, sums, |ws|, useMetric, format == "detailed");
    assert ws[..|ws|] == ws;
  }

  /** The first week has no change lines; every later week has two, against
      the week just before it in the sorted order. */
  lemma ReportChanges(sums: map<WeekKey, WeekSummary>, useMetric: bool, format: string)
    ensures var ws := SortedWeeks(sums);
      var p := Pick(ReportLines(sums, useMetric, format), ChangeOf);
      |p| == (if sums == map[] then 0 else 2 * (|sums| - 1)) &&
      forall i :: 0 < i < |ws| ==> ChangesAgainst(p, ws, sums, i)
  {
    WeekLessIsStrictTotal();
    SortedSeqFacts(sums.Keys, WeekLess);
    var ws := SortedWeeks(sums);
    ReportPick(sums, useMetric, format, ChangeOf);
    WeekLinesChanges(ws, sums, |ws|, useMetric, format == "detailed");
    if sums != map[] {
      var w :| w in sums;
      assert w in ws;
    }
  }

  /** Each week's total workout time is its cardio time plus its strength time. */
  lemma ReportTotalTimes(sums: map<WeekKey, WeekSummary>, useMetric: bool, format: string)
    ensures var ws := SortedWeeks(sums);
      var p := Pick(ReportLines(sums, useMetric, format), TotalTimeOf);
      |p| == |ws| == |sums| &&
      forall i :: 0 <= i < |ws| ==> p[i] == TotalTimeLine(TotalSeconds(sums[ws[i]]))
  {
    WeekLessIsStrictTotal();
    SortedSeqFacts(sums.Keys, WeekLess);
    var ws := SortedWeeks(sums);
    ReportPick(sums, useMetric, format, TotalTimeOf);
    WeekLinesTotalTimes(ws, sums, |ws|, useMetric, format == "detailed");
  }

  // ---------------------------------------------------------------------
  // The loops of `generate_markdown_report`, each building its part of the
  // `report` list.

  /** `sorted(summary['Workouts'].items())`, line 335. */
  method MinutesInOrder(workouts: Timeline) returns (ks: seq<int>)
    ensures ks == SortedMinutes(workouts)
    ensures forall k :: k in ks ==> k in workouts
  {
    IntLessIsStrictTotal();
    SortedSeqFacts(workouts.Keys, IntLess);
    ks := SortSet(workouts.Keys, IntLess);
  }

  /** `sorted(summary['Exercise_details'].items())`, line 359. */
  method NamesInOrder(details: map<string, ExerciseDetail>) returns (names: seq<string>)
    ensures names == SortedNames(details)
    ensures forall n :: n in names ==> n in details
  {
    StrLessIsStrictTotal();
    SortedSeqFacts(details.Keys, StrLess);
    names := SortSet(details.Keys, StrLess);
  }

  /** `sorted_weeks`, lines 324-325. */
  method WeeksInOrder(summaries: map<WeekKey, WeekSummary>) returns (ws: seq<WeekKey>)
    ensures ws == SortedWeeks(summaries)
    ensures forall w :: w in ws ==> w in summaries
  {
    WeekLessIsStrictTotal();
    SortedSeqFacts(summaries.Keys, WeekLess);
    ws := SortSet(summaries.Keys, WeekLess);
  }

  /** Lines 351-354. */
  method SetRowsOf(records: seq<WorkoutRecord>) returns (rows: seq<Line>)
    ensures rows == SetRows(records)
  {
    rows := [];
    var i := 0;
    while i < |records|
      invariant 0 <= i <= |records|
      invariant rows == SetRows(records[..i])
    {
      var x := records[i];
      assert records[..i + 1][..i] == records[..i];
      rows := rows + [SetRow(i + 1, x.reps, x.weight, x.weightUnit, x.isWarmup)];
      i := i + 1;
    }
    assert records[..i] == records;
  }

  /** Lines 339-343: `exercises_by_name`, filled in order of first appearance. */
  method GroupByName(records: seq<WorkoutRecord>) returns (g: Groups)
    ensures g == GroupRecords(records)
    ensures GroupsOf(records, g)
  {
    var names: seq<string> := [];
    var byName: map<string, seq<WorkoutRecord>> := map[];
    var i := 0;
    while i < |records|
      invariant 0 <= i <= |records|
      invariant Groups(names, byName) == GroupRecords(records[..i])
    {
      var x := records[i];
      assert records[..i + 1][..i] == records[..i];
      if x.exercise !in byName {
        names := names + [x.exercise];
        byName := byName[x.exercise := []];
        assert byName[x.exercise] + [x] == [x];
      }
      byName := byName[x.exercise := byName[x.exercise] + [x]];
      i := i + 1;
    }
    assert records[..i] == records;
    g := Groups(names, byName);
    GroupRecordsMeaning(records);
  }

  /** Lines 347-355. */
  method GroupBlockOf(n: string, records: seq<WorkoutRecord>) returns (lines: seq<Line>)
    ensures lines == GroupBlock(n, records)
  {
    var rows := SetRowsOf(records);
    lines := [GroupHeading(n, |records|), SetTableHeader, SetTableRule] + rows + [Blank];
  }

  /** The blocks of the first `j + 1` names are those of the first `j`, then that of name `j`. */
  lemma GroupLinesStep(g: Groups, names: seq<string>, j: nat)
    requires j < |names| && forall n :: n in names ==> n in g.byName
    ensures GroupLines(g, names[..j + 1]) == GroupLines(g, names[..j]) + GroupBlock(names[j], g.byName[names[j]])
  {
    assert names[..j + 1][..j] == names[..j];
  }

  /** Lines 336-355 for one minute of the timeline. */
  method MinuteBlockOf(k: int, records: seq<WorkoutRecord>) returns (lines: seq<Line>)
    ensures lines == MinuteBlock(k, records)
  {
    var g := GroupByName(records);
    GroupRecordsNames(records);
    var groups: seq<Line> := [];
    var j := 0;
    while j < |g.names|
      invariant 0 <= j <= |g.names|
      invariant groups == GroupLines(g, g.names[..j])
    {
      var n := g.names[j];
      var block := GroupBlockOf(n, g.byName[n]);
      GroupLinesStep(g, g.names, j);
      groups := groups + block;
      j := j + 1;
    }
    assert g.names[..j] == g.names;
    lines := [MinuteHeading(k)] + groups;
  }

  /** Lines 336-355: the loop of the `### Daily Workouts` part over the minutes `ks`. */
  method DailyWorkoutsOf(ks: seq<int>, workouts: Timeline) returns (lines: seq<Line>)
    requires forall k :: k in ks ==> k in workouts
    ensures lines == MinuteLines(ks, workouts)
  {
    lines := [];
    var i := 0;
    while i < |ks|
      invariant 0 <= i <= |ks|
      invariant lines == MinuteLines(ks[..i], workouts)
    {
      var k := ks[i];
      var block := MinuteBlockOf(k, workouts[k]);
      assert MinuteLines(ks[..i + 1], workouts) == MinuteLines(ks[..i], workouts) + MinuteBlock(k, workouts[k]) by {
        assert ks[..i + 1][..i] == ks[..i];
      }
      lines := lines + block;
      i := i + 1;
    }
    assert ks[..i] == ks;
  }

  /** Lines 375-378. */
  method ProgressionRowsOf(sets: seq<SetRecord>, unit: string) returns (rows: seq<Line>)
    ensures rows == ProgressionRows(sets, unit)
  {
    rows := [];
    var i := 0;
    while i < |sets|
      invariant 0 <= i <= |sets|
      invariant rows == ProgressionRows(sets[..i], unit)
    {
      var x := sets[i];
      assert sets[..i + 1][..i] == sets[..i];
      rows := rows + [ProgressionRow(i + 1, x.weight, unit, x.reps, x.isWarmup)];
      i := i + 1;
    }
    assert sets[..i] == sets;
  }

  /** Lines 360-379 for one exercise. */
  method DetailBlockOf(n: string, d: ExerciseDetail, unit: string) returns (lines: seq<Line>)
    ensures lines == DetailBlock(n, d, unit)
  {
    var head := [ExerciseHeading(n), WorkingSetsLine(d.workingSets), WarmupSetsLine(d.warmupSets), DetailRepsLine(d.totalReps)];
    if d.isCardio {
      head := head + [DetailDurationLine(d.totalDuration)];
    }
    head := head + [MaxWeightLine(d.maxWeight, unit), DetailVolumeLine(d.totalVolume, unit),
                    ProgressionHeading, ProgressionHeader, ProgressionRule];
    var rows := ProgressionRowsOf(d.sets, unit);
    lines := head + rows + [Blank];
  }

  /** Lines 360-379: the loop of the `### Exercise Details` part over the exercises `names`. */
  method ExerciseDetailsOf(names: seq<string>, details: map<string, ExerciseDetail>, unit: string) returns (lines: seq<Line>)
    requires forall n :: n in names ==> n in details
    ensures lines == DetailLines(names, details, unit)
  {
    lines := [];
    var i := 0;
    while i < |names|
      invariant 0 <= i <= |names|
      invariant lines == DetailLines(names[..i], details, unit)
    {
      var n := names[i];
      var block := DetailBlockOf(n, details[n], unit);
      assert names[..i + 1][..i] == names[..i];
      lines := lines + block;
      i := i + 1;
    }
    assert names[..i] == names;
  }

  /** Lines 384-385. */
  method DistanceItemsOf(t: Tally, unit: string) returns (lines: seq<Line>)
    ensures lines == DistanceItems(t, t.names, unit)
  {
    lines := [];
    var i := 0;
    while i < |t.names|
      invariant 0 <= i <= |t.names|
      invariant lines == DistanceItems(t, t.names[..i], unit)
    {
      var n := t.names[i];
      assert t.names[..i + 1][..i] == t.names[..i];
      lines := lines + [DistanceItem(n, AmountOf(t)(n), unit)];
      i := i + 1;
    }
    assert t.names[..i] == t.names;
  }

  /** Lines 390-391. */
  method VolumeItemsOf(t: Tally, unit: string) returns (lines: seq<Line>)
    ensures lines == VolumeItems(t, t.names, unit)
  {
    lines := [];
    var i := 0;
    while i < |t.names|
      invariant 0 <= i <= |t.names|
      invariant lines == VolumeItems(t, t.names[..i], unit)
    {
      var n := t.names[i];
      assert t.names[..i + 1][..i] == t.names[..i];
      lines := lines + [VolumeItem(n, AmountOf(t)(n), unit)];
      i := i + 1;
    }
    assert t.names[..i] == t.names;
  }

  /** Lines 334-379, the detailed format. */
  method DetailedPartOf(summary: WeekSummary, useMetric: bool, weightUnit: string) returns (lines: seq<Line>)
    requires weightUnit == WeightUnit(useMetric)
    ensures lines == DetailedPart(summary, useMetric)
  {
    var minutes := MinutesInOrder(summary.workouts);
    var daily := DailyWorkoutsOf(minutes, summary.workouts);
    var names := NamesInOrder(summary.details);
    var exercises := ExerciseDetailsOf(names, summary.details, weightUnit);
    lines := [DailyWorkoutsHeading] + daily + [ExerciseDetailsHeading] + exercises;
  }

  /** Lines 382-392, the summary format. */
  method SummaryPartOf(summary: WeekSummary, useMetric: bool, distanceUnit: string, weightUnit: string) returns (lines: seq<Line>)
    requires distanceUnit == DistanceUnit(useMetric) && weightUnit == WeightUnit(useMetric)
    ensures lines == SummaryPart(summary, useMetric)
  {
    var distancePart: seq<Line> := [];
    if |summary.distanceBy.amount| > 0 {
      var items := DistanceItemsOf(summary.distanceBy, distanceUnit);
      distancePart := [DistanceByHeading] + items + [Blank];
    }
    var volumePart: seq<Line> := [];
    if |summary.volumeBy.amount| > 0 {
      var items := VolumeItemsOf(summary.volumeBy, weightUnit);
      volumePart := [VolumeByHeading] + items + [Blank];
    }
    lines := distancePart + volumePart;
  }

  /** Lines 395-410: the statistics of one week. */
  method StatsPartOf(summary: WeekSummary, useMetric: bool, distanceUnit: string, weightUnit: string) returns (lines: seq<Line>)
    requires distanceUnit == DistanceUnit(useMetric) && weightUnit == WeightUnit(useMetric)
    ensures lines == StatsPart(summary, useMetric)
  {
    var totalDuration := summary.cardio + summary.strength;
    lines := [StatsHeading, TotalTimeLine(totalDuration), StrengthTimeLine(summary.strength),
              CardioTimeLine(summary.cardio), TotalDistanceLine(summary.distance, distanceUnit),
              TotalRepsLine(summary.reps), TotalVolumeLine(summary.volume, weightUnit)];
  }

  /** Lines 413-421: the changes against the previous week, if there is one. */
  method ChangePartOf(summary: WeekSummary, previous: Option<WeekSummary>) returns (lines: seq<Line>)
    ensures lines == ChangePart(summary, previous)
  {
    lines := [];
    if previous.Some? {
      var p := previous.value;
      var distanceChange := if p.distance != 0.0 then (summary.distance - p.distance) / p.distance * 100.0 else 0.0;
      var volumeChange := if p.volume != 0.0 then (summary.volume - p.volume) / p.volume * 100.0 else 0.0;
      lines := [DistanceChangeLine(distanceChange), VolumeChangeLine(volumeChange)];
    }
  }

  /** Lines 330-424 for one week. */
  method WeekSectionOf(week: WeekKey, summary: WeekSummary, previous: Option<WeekSummary>,
                       useMetric: bool, detailed: bool, distanceUnit: string, weightUnit: string)
    returns (section: seq<Line>)
    requires distanceUnit == DistanceUnit(useMetric) && weightUnit == WeightUnit(useMetric)
    ensures section == WeekSection(week, summary, previous, useMetric, detailed)
  {
    var part;
    if detailed {
      part := DetailedPartOf(summary, useMetric, weightUnit);
    } else {
      part := SummaryPartOf(summary, useMetric, distanceUnit, weightUnit);
    }
    var stats := StatsPartOf(summary, useMetric, distanceUnit, weightUnit);
    var changes := ChangePartOf(summary, previous);
    section := [WeekHeading(week)] + part + stats + changes + [Separator];
    WeekSectionShape(week, summary, previous, useMetric, detailed);
  }

  /** `n` weeks are the first `n - 1`, then the section of week `n - 1`. */
  lemma WeekLinesStep(ws: seq<WeekKey>, sums: map<WeekKey, WeekSummary>, n: nat, useMetric: bool, detailed: bool)
    requires 0 < n <= |ws| && forall w :: w in ws ==> w in sums
    ensures WeekLines(ws, sums, n, useMetric, detailed)
         == WeekLines(ws, sums, n - 1, useMetric, detailed) + SectionAt(ws, sums, useMetric, detailed)(n - 1)
  {
    Seqs.ConcatSeqStep(n, SectionAt(ws, sums, useMetric, detailed));
  }

  lemma TitleThen(report: seq<Line>, before: seq<Line>, section: seq<Line>, after: seq<Line>)
    requires report == [Title] + before && after == before + section
    ensures report + section == [Title] + after
  {
  }

  /** The state of the loop of lines 328-425 after the first `i` weeks: the
      report so far, and the last week appended. */
  ghost predicate ReportSoFar(report: seq<Line>, previous: Option<WeekSummary>, ws: seq<WeekKey>,
                              sums: map<WeekKey, WeekSummary>, i: nat, useMetric: bool, detailed: bool)
    requires forall w :: w in ws ==> w in sums
  {
    && i <= |ws|
    && previous == Previous(ws, sums, i)
    && report == [Title] + WeekLines(ws, sums, i, useMetric, detailed)
  }

  /** The section of week `i`, compared with the week before it. */
  lemma SectionAtIs(ws: seq<WeekKey>, sums: map<WeekKey, WeekSummary>, i: nat, useMetric: bool, detailed: bool,
                    previous: Option<WeekSummary>, section: seq<Line>)
    requires i < |ws| && forall w :: w in ws ==> w in sums
    requires previous == Previous(ws, sums, i)
    requires section == WeekSection(ws[i], sums[ws[i]], previous, useMetric, detailed)
    ensures section == SectionAt(ws, sums, useMetric, detailed)(i)
  {
  }

  /** Appending the section of week `i` to a report of the first `i` weeks
      gives the report of the first `i + 1` weeks. */
  lemma ReportSoFarStep(report: seq<Line>, previous: Option<WeekSummary>, ws: seq<WeekKey>,
                        sums: map<WeekKey, WeekSummary>, i: nat, useMetric: bool, detailed: bool,
                        section: seq<Line>)
    requires i < |ws| && forall w :: w in ws ==> w in sums
    requires ReportSoFar(report, previous, ws, sums, i, useMetric, detailed)
    requires section == SectionAt(ws, sums, useMetric, detailed)(i)
    ensures ReportSoFar(report + section, Some(sums[ws[i]]), ws, sums, i + 1, useMetric, detailed)
  {
    WeekLinesStep(ws, sums, i + 1, useMetric, detailed);
    TitleThen(report, WeekLines(ws, sums, i, useMetric, detailed), section, WeekLines(ws, sums, i + 1, useMetric, detailed));
  }

  /** One turn of the loop of lines 328-425: week `i` is appended, compared
      with `previous`, and becomes the previous week. */
  method AppendWeek(report: seq<Line>, previous: Option<WeekSummary>, ws: seq<WeekKey>,
                    summaries: map<WeekKey, WeekSummary>, i: nat, useMetric: bool, detailed: bool,
                    distanceUnit: string, weightUnit: string)
    returns (report': seq<Line>, previous': Option<WeekSummary>)
    requires i < |ws| && forall w :: w in ws ==> w in summaries
    requires distanceUnit == DistanceUnit(useMetric) && weightUnit == WeightUnit(useMetric)
    requires ReportSoFar(report, previous, ws, summaries, i, useMetric, detailed)
    ensures ReportSoFar(report', previous', ws, summaries, i + 1, useMetric, detailed)
  {
    var week := ws[i];
    var summary := summaries[week];
    var section := WeekSectionOf(week, summary, previous, useMetric, detailed, distanceUnit, weightUnit);
    report' := report + section;
    previous' := Some(summary);
    SectionAtIs(ws, summaries, i, useMetric, detailed, previous, section);
    ReportSoFarStep(report, previous, ws, summaries, i, useMetric, detailed, section);
  }

  /** Before the loop the report is the title alone. */
  lemma ReportSoFarStart(ws: seq<WeekKey>, sums: map<WeekKey, WeekSummary>, useMetric: bool, detailed: bool)
    requires forall w :: w in ws ==> w in sums
    ensures ReportSoFar([Title], None, ws, sums, 0, useMetric, detailed)
  {
    assert Sections(ws, sums, 0, useMetric, detailed) == [];
  }

  /** After the last week the report holds every week. */
  lemma ReportSoFarDone(report: seq<Line>, previous: Option<WeekSummary>, ws: seq<WeekKey>,
                        sums: map<WeekKey, WeekSummary>, i: nat, useMetric: bool, detailed: bool)
    requires forall w :: w in ws ==> w in sums
    requires ReportSoFar(report, previous, ws, sums, i, useMetric, detailed) && |ws| <= i
    ensures report == [Title] + WeekLines(ws, sums, |ws|, useMetric, detailed)
  {
  }

  /** Lines 328-424: the loop of `generate_markdown_report` over weeks `ws`,
      remembering the previous week for the change lines. */
  method WeeksOf(ws: seq<WeekKey>, summaries: map<WeekKey, WeekSummary>, useMetric: bool, detailed: bool,
                 distanceUnit: string, weightUnit: string)
    returns (report: seq<Line>)
    requires forall w :: w in ws ==> w in summaries
    requires distanceUnit == DistanceUnit(useMetric) && weightUnit == WeightUnit(useMetric)
    ensures report == [Title] + WeekLines(ws, summaries, |ws|, useMetric, detailed)
  {
    report := [Title];
    var previous: Option<WeekSummary> := None;
    var i := 0;
    ReportSoFarStart(ws, summaries, useMetric, detailed);
    while i < |ws|
      invariant ReportSoFar(report, previous, ws, summaries, i, useMetric, detailed)
      decreases |ws| - i
    {
      report, previous := AppendWeek(report, previous, ws, summaries, i, useMetric, detailed, distanceUnit, weightUnit);
      i := i + 1;
    }
    ReportSoFarDone(report, previous, ws, summaries, i, useMetric, detailed);
  }

  /** Lines 305-426: `generate_markdown_report`, week by week in order of
      their Monday. */
  method GenerateMarkdownReport(summaries: map<WeekKey, WeekSummary>, useMetric: bool, reportFormat: string)
    returns (report: seq<Line>)
    ensures report == ReportLines(summaries, useMetric, reportFormat)
  {
    var distanceUnit := Converters.ConvertUnits(1.0, "distance", useMetric).1;
    DistanceUnitFromConverter(1.0, useMetric);
    var weightUnit := if useMetric then "kg" else "lbs";
    var sortedWeeks := WeeksInOrder(summaries);
    report := WeeksOf(sortedWeeks, summaries, useMetric, reportFormat == "detailed", distanceUnit, weightUnit);
  }
}
