# Fitbod workout report: a verified model of the aggregation engine

This project is a Dafny model of the part of the Fitbod report tool that turns a
workout export into weekly summaries and a Markdown report. The export is a list of
logged sets: date, exercise, reps, weight, distance, duration and warm-up flag.
The model covers:

- `summarize_by_week` (`src/report/generator.py`), in three passes:
  - cleaning and classifying each entry;
  - filing entries by local day and building strength sessions;
  - creating one summary per week with its estimated strength time, then accumulating
    totals, per-exercise tallies, exercise detail records and the minute-keyed timeline.
- `generate_markdown_report` (`src/report/generator.py`): weeks in order of their
  Monday, a detailed or summary body, the statistics block, and the week-over-week
  change lines.
- `process_data` (`src/data/processor.py`): rows to header-keyed records, skipping
  rows of the wrong length.
- `validate_data_structure` (`src/data/validator.py`): the required-column check.
- `seconds_to_time` and `convert_units` (`src/utils/converters.py`).

## How the source maps onto the model

- **Modules.** One module per concern:
  - `Converters`, `Validator` and `Processor` for the three helper files;
  - `Timestamps` (date text, parsing, zone, day, week key), `Entries` (cleaning and
    classification), `Sessions` (session builder and duration estimate), `Days` (the
    `workouts_by_date` table), `Tallies`, `Details`, `Weekly` (one entry's effect on a
    week), `Summarize` (the passes of `summarize_by_week`), `WeekFacts` (what each
    weekly summary holds) and `Report`;
  - `Wrappers`, `Seqs` and `Ordering` are shared helpers (results, sums over sequences,
    Python's `sorted`).
- **Pure code** (the classifier, the percentage formula, the validator, the converters)
  is written as functions.
- **Loops that update dictionaries and lists** are methods with loop invariants, each
  proved equal to a specification function. The lemmas are stated about those functions:
  - for `summarize_by_week`: `FileEntries`, `PlaceStrength`, `InitSummaries`,
    `AddSessions`, `AccumulateDay` and `AccumulateStats`;
  - for `generate_markdown_report`: the `...Of` methods, `AppendWeek` and `WeeksOf`;
  - for `process_data`: `ProcessData` and `BuildRecord`.
- **Times.** A local time is a `Moment`: the UTC instant and the local wall clock, both
  in seconds since 1970-01-01.
  - Python compares and subtracts aware datetimes by their instant. Session gaps and
    "distinct timestamps" therefore use the instant.
  - The day, the week key, the timeline minute and the clock time come from the wall
    clock.
  - A week key `"<Monday> to <Monday+6>"` is held as the Monday's day number. It is
    ordered the way lines 324-325 parse it back.
- **Parameters.** The pytz zone shift is the parameter `zone: int -> int`. `strptime`
  for each of the three layouts is the parameter `parse`, which returns `None` when the
  text does not match.
- **The report** is a sequence of structured `Line` values, one per element of the
  source's `report` list.
- **Week-over-week changes.** Lines 417-418 emit a change of `0` when the previous
  week's value is 0, and `PercentChange` returns 0 in that case.
- **No period aggregation.** `generate_markdown_report` (src/report/generator.py:305)
  takes no period parameter, although app.py:58-62 passes `period_type`. The shown
  code has no monthly or N-week aggregation and no overall-summary section, so the
  model has none either.
- **Quirks of the code, modelled as written:**
  - In imperial mode the weight is converted to pounds at line 122. At line 231 it goes
    through `convert_units` a second time: multiplied again in imperial mode, divided by
    2.20462 in metric mode. Metric distances are likewise divided by 0.621371 (line 286).
  - A negative session gap also qualifies at line 172, because the gap is not an
    absolute value.

## Model

| member | source | states |
|---|---|---|
| Converters.SecondsToTime | src/utils/converters.py:12-18 | a negative input gives 0h 0m 0s; minutes and seconds are below 60, hours non-negative, and 3600·h + 60·m + s is the whole number of seconds |
| Converters.SecondsToTimeUnique | src/utils/converters.py:16-18 | any in-range clock adding up to the whole seconds is the one produced, so the divmod split is the only such split |
| Converters.ConvertUnits | src/utils/converters.py:34-42 | to metric the result times the factor is the value and the label is kg or km; otherwise the value times the factor, labelled lbs or miles |
| Converters.RoundTrip | src/utils/converters.py:40-42 | converting to imperial and back to metric returns the value |
| Converters.RoundTripMetric | src/utils/converters.py:40-42 | converting to metric and back to imperial returns the value |
| Converters.SignPreserved | src/utils/converters.py:34-42 | the result is positive, zero or negative exactly when the value is |
| Validator.ValidateDataStructure | src/data/validator.py:18-26 | the missing set is required minus the frame's columns, or minus the first row in list mode; empty or non-list input gives (false, all required); valid iff nothing is missing |
| Validator.RequiredColumnCount | src/data/validator.py:13-16 | exactly eleven columns are required |
| Validator.ValidIffAllPresent | src/data/validator.py:18-20 | a frame is valid iff every required column is among its columns |
| Validator.ValidityMonotone | src/data/validator.py:18-20 | adding columns never makes a valid frame invalid |
| Validator.ListModeReadsFirstRowOnly | src/data/validator.py:22-25 | rows after the first never change the list-mode verdict |
| Validator.ModesAgree | src/data/validator.py:18-25 | a frame and a list whose first row is the frame's columns get the same verdict |
| Processor.ProcessData | src/data/processor.py:36-50 | the output is the records of the rows whose length equals the header count, in order; the skip count is the number of other rows |
| Processor.BuildRecord | src/data/processor.py:44-46 | the record filled header by header is the record of the row |
| Processor.KeptRows | src/data/processor.py:38-43 | no more rows are kept than given, and every kept row has the header's length |
| Processor.KeptPlusSkipped | src/data/processor.py:37-43 | kept rows plus skipped rows is the number of rows |
| Processor.KeptRowsExactly | src/data/processor.py:38-47 | a row is kept iff it occurs in the data with the header's length |
| Processor.KeptRowsAppend | src/data/processor.py:38-47 | keeping rows of two batches is keeping each batch, in order: the original order is preserved |
| Processor.RecordKeys | src/data/processor.py:44-46 | a record's keys are the headers used |
| Processor.RecordValueLastWins | src/data/processor.py:45-46 | a header maps to the column of its last occurrence |
| Processor.ProcessedRecordShape | src/data/processor.py:44-46 | every output record has exactly the headers as keys, and each header maps to the value of its last column |
| Entries.Truncate | src/report/generator.py:113 | `int()` of a float rounds toward zero |
| Entries.Classify | src/report/generator.py:125-137 | an entry is never both cardio and strength |
| Entries.NeitherKind | src/report/generator.py:125-137 | for non-negative measurements an entry is neither kind iff it has distance but no reps, weight or duration |
| Entries.NegativeRepsNotStrength | src/report/generator.py:131-137 | negative reps are never strength |
| Entries.ClassifyScaleInvariant | src/report/generator.py:121-137 | the imperial conversion of the weight never changes the classification |
| Entries.Clean | src/report/generator.py:89-150 | fails iff no layout parses the date, with that text as error; otherwise the entry holds the localized time, the classification of its truncated reps, converted weight and duration, and its other fields unchanged |
| Entries.CleanAllElementwise | src/report/generator.py:87-150 | cleaning all entries succeeds iff every date is readable, and then holds each entry's cleaned form at its own position |
| Entries.CleanAllFirstError | src/report/generator.py:94-103 | the error is the one of the first unreadable date |
| Timestamps.BeforeFirst | src/report/generator.py:92 | the result is the longest prefix without the separator |
| Timestamps.Strip | src/report/generator.py:92 | the result does not start or end with whitespace |
| Timestamps.StripTrimmed | src/report/generator.py:92 | text without surrounding whitespace is left as it is |
| Timestamps.DateText | src/report/generator.py:89-92 | the text has no '+' afterwards, and text without '+' is unchanged |
| Timestamps.ParseDate | src/report/generator.py:94-103 | the result comes from the first layout that parses; an error iff none of the three does |
| Timestamps.Localize | src/report/generator.py:106 | the local time keeps the parsed UTC instant |
| Timestamps.WeekOf | src/report/generator.py:108-109 | a week starts on a Monday and contains the day |
| Timestamps.WeekOfEveryDay | src/report/generator.py:108-109 | every day from a Monday to the following Sunday has that week's key |
| Timestamps.WeeksDisjoint | src/report/generator.py:108-109 | two different weeks cover disjoint runs of days |
| Timestamps.MinuteKeyWithinDay | src/report/generator.py:226-240 | a timeline key is a minute of the entry's local day, at its clock time |
| Sessions.FirstFit | src/report/generator.py:167-175 | the session found is the first one, in creation order, whose last entry is at most 1800 s earlier; none iff no session fits |
| Sessions.PlaceStrength | src/report/generator.py:164-179 | the session loop with its found flag joins the first fitting session or opens a new one |
| Sessions.PlaceKeepsEntries | src/report/generator.py:164-179 | placing adds the entry to exactly one session, keeps every other entry, and leaves no session empty |
| Sessions.PlaceOpensSession | src/report/generator.py:177-179 | a new session, holding just the entry, is opened iff no existing session fits |
| Sessions.SessionizeHoldsStrength | src/report/generator.py:163-179 | a day's sessions hold exactly its strength entries, each once, and none is empty |
| Sessions.DistinctInstants | src/report/generator.py:201-203 | a session has more than one distinct timestamp iff some entry differs in time from the first |
| Sessions.EstimateBounds | src/report/generator.py:209-215 | the estimate lies between 60 and 120 s per set, and is 60 s per set iff every set is a warm-up |
| Sessions.DurationCases | src/report/generator.py:199-215 | a single-instant session gets the estimate (so at least 60 s); otherwise its duration is last minus first |
| Days.FileEntry | src/report/generator.py:152-179 | filing an entry creates the day once, appends the entry, and places a strength entry in a session |
| Days.GroupByDayOrder | src/report/generator.py:152-161 | the day table lists each local day of the entries once, and nothing else |
| Days.GroupByDayContents | src/report/generator.py:152-179 | each day holds exactly its own entries in input order, its week key and the sessions built from those entries |
| Days.SameDaySameWeek | src/report/generator.py:153-158 | two entries of the same local day share the day's record and its week key |
| Days.FlatIsPermutation | src/report/generator.py:220-224 | visiting the table day by day meets every entry exactly once |
| Details.NewDetail | src/report/generator.py:254-264 | a new detail record is consistent, empty, and has the given cardio flag |
| Details.AddSetConsistent | src/report/generator.py:266-282 | appending a set keeps working plus warm-up sets equal to the number of sets, the totals equal to sums over the sets, and the maximum equal to max(0, set weights) |
| Details.AddRecordCount | src/report/generator.py:227-245 | each appended timeline record adds one to the number of records |
| Details.EmptyCount | src/report/generator.py:194 | a fresh timeline holds no records |
| Tallies.AddEffect | src/report/generator.py:289-301 | a positive amount lands under its name, creating the key at 0 first; a non-positive one changes nothing; other names are untouched |
| Tallies.AddTotal | src/report/generator.py:289-301 | a tally's sum grows by exactly the positive part of a contribution |
| Tallies.TallyFoldTotal | src/report/generator.py:289-301 | a tally lists each name once and sums to the positive contributions |
| Tallies.TallyFoldKeys | src/report/generator.py:289-301 | a name is a key iff some item of that name contributed a positive amount |
| Tallies.NonNegativeTotal | src/report/generator.py:289-301 | with no negative contribution the tally sums to the plain sum |
| Weekly.StatsFoldAppend | src/report/generator.py:224-301 | accumulating two batches of entries is accumulating one after the other |
| Weekly.StatsFoldTotals | src/report/generator.py:247-297 | reps, cardio time, distance and volume grow by the sums over the entries; the strength time is untouched |
| Weekly.StatsFoldTallies | src/report/generator.py:289-301 | both tallies receive each entry's distance and volume under its exercise name |
| Weekly.StatsFoldDetails | src/report/generator.py:253-282 | the detail records are those built from the entries in order |
| Weekly.DetailsFoldConsistent | src/report/generator.py:253-282 | every detail record stays consistent |
| Weekly.AddToDetailsAt | src/report/generator.py:253-273 | an entry appends its set to its own exercise's record only |
| Weekly.DetailsFoldSets | src/report/generator.py:266-273 | an exercise's sets are the sets of its entries, in order |
| Weekly.DetailsFoldCardioFlag | src/report/generator.py:254-264 | a new record's cardio flag is that of its exercise's first entry |
| Weekly.DetailsFoldKeys | src/report/generator.py:254-264 | there is one record per exercise name seen |
| Weekly.StatsFoldWorkouts | src/report/generator.py:226-245 | every entry adds one record to the timeline |
| Summarize.FileEntries | src/report/generator.py:82-179 | the day table of the cleaned entries, or the first date error |
| Summarize.CleanStops | src/report/generator.py:94-103 | an unreadable date stops the cleaning with its own error |
| Summarize.InitSummaries | src/report/generator.py:182-217 | the loop creates the weeks of the days in order and adds each day's session durations |
| Summarize.AddSessions | src/report/generator.py:198-217 | a day adds the durations of its non-empty sessions to its week's strength time |
| Summarize.InitWeeksKeys | src/report/generator.py:182-195 | the weeks created are exactly those of the listed days |
| Summarize.InitWeeksMeaning | src/report/generator.py:181-217 | each week starts empty except for the strength time summed over its days |
| Summarize.AccumDays | src/report/generator.py:219-301 | accumulating creates no week and removes none |
| Summarize.AccumulateDay | src/report/generator.py:224-301 | each entry of the day updates its week's summary, first to last |
| Summarize.AccumulateStats | src/report/generator.py:220-301 | the pass over the days accumulates every day into its week |
| Summarize.SummarizeByWeek | src/report/generator.py:82-303 | the summaries of the cleaned entries, or the parse error of the first unreadable date |
| Summarize.AccumDaysWeek | src/report/generator.py:219-301 | each week receives the entries of its days, in table order |
| Summarize.WeeklyLink | src/report/generator.py:181-301 | a week is its days' strength time followed by the accumulation of its entries |
| Summarize.WeekSum | src/report/generator.py:219-224 | summing a week's entries in table order equals summing them in input order |
| WeekFacts.WeeklyKeys | src/report/generator.py:181-195 | there is one summary per week key of the entries, and no other |
| WeekFacts.WeekTotals | src/report/generator.py:247-297 | a week's reps, cardio time, distance and volume are the sums over its entries |
| WeekFacts.WeekDaysFacts | src/report/generator.py:182-184 | a week's days are exactly the local days of its entries, each once |
| WeekFacts.WeekStrength | src/report/generator.py:197-217 | a week's strength time is the sum, over its days, of the session durations of each day's entries |
| WeekFacts.WeekTallies | src/report/generator.py:289-301 | both tallies list each name once, hold a key iff some entry of that week contributes positively, and sum to the positive contributions |
| WeekFacts.NonNegativeContributions | src/report/generator.py:284-298 | non-negative measurements give non-negative volume and distance |
| WeekFacts.WeekTalliesAddUp | src/report/generator.py:284-301 | for non-negative inputs the per-exercise volumes sum to the volume and the per-exercise distances to the distance |
| WeekFacts.WeekDetails | src/report/generator.py:253-282 | a week has one consistent detail record per exercise done that week; its set list has one set per entry of that exercise and week, in table order, and those entries are the input's entries of that exercise and week, each once |
| WeekFacts.WeekWorkouts | src/report/generator.py:226-245 | a week's timeline holds one record per entry of that week |
| Ordering.SortSet | src/report/generator.py:324-325 | sorting a set of keys gives the ascending enumeration |
| Ordering.SortedSeqFacts | src/report/generator.py:324-325 | the enumeration is ascending and holds every key exactly once |
| Ordering.AscendingUnique | src/report/generator.py:324-325 | two ascending sequences with the same keys are equal, so the sort result is determined |
| Ordering.StrLessIsStrictTotal | src/report/generator.py:359 | Python's string comparison is a strict total order |
| Report.DistanceUnitFromConverter | src/report/generator.py:319 | the distance label comes from the converter whatever the value |
| Report.PercentChangeMeaning | src/report/generator.py:417-418 | applying the change to a non-zero previous value gives the current value back; a zero previous value gives 0 |
| Report.WeekLessIsStrictTotal | src/report/generator.py:324-325 | ordering weeks by their Monday is a strict total order |
| Report.WeeksInOrder | src/report/generator.py:324-325 | the weeks are sorted by their Monday |
| Report.MinutesInOrder | src/report/generator.py:335 | the timeline minutes are sorted |
| Report.NamesInOrder | src/report/generator.py:359 | the exercise names are sorted |
| Report.SetRowsOf | src/report/generator.py:351-354 | the set rows are numbered from 1, one per record |
| Report.SetRowsBody | src/report/generator.py:351-354 | there is one set row per record |
| Report.GroupByName | src/report/generator.py:339-343 | the loop builds the grouping of the records; it maps each name to exactly its records in their original order and lists each name once, in order of first appearance |
| Report.GroupRecordsMeaning | src/report/generator.py:339-343 | for every record list: each key maps to the records with that name, in order; a name is a key iff some record has it; the names are the keys, without repetition, ordered by first appearance |
| Report.GroupRecordsNames | src/report/generator.py:339-346 | the names listed are exactly the grouping's keys |
| Report.GroupBlockOf | src/report/generator.py:347-355 | one exercise of a minute becomes a heading with its set count, the table header and the set rows |
| Report.MinuteBlockOf | src/report/generator.py:336-355 | one minute becomes its heading and the block of each exercise group |
| Report.DailyWorkoutsOf | src/report/generator.py:335-355 | the loop over the minutes produces their blocks in order |
| Report.ProgressionRowsOf | src/report/generator.py:375-378 | the progression rows are numbered from 1, one per set |
| Report.DetailBlockOf | src/report/generator.py:360-379 | one exercise's counters, a duration only for cardio, its maximum, volume and progression |
| Report.ExerciseDetailsOf | src/report/generator.py:359-379 | the loop over the exercises produces their blocks in order |
| Report.DistanceItemsOf | src/report/generator.py:384-385 | one distance item per tallied name, in insertion order |
| Report.VolumeItemsOf | src/report/generator.py:390-391 | one volume item per tallied name, in insertion order |
| Report.DetailedPartOf | src/report/generator.py:334-379 | the timeline in minute order, then the exercises in name order |
| Report.SummaryPartOf | src/report/generator.py:382-392 | each non-empty tally as a headed list |
| Report.DetailedPartBody | src/report/generator.py:334-379 | the detailed body holds no week heading, total-time line or change line |
| Report.SummaryPartBody | src/report/generator.py:382-392 | the summary body holds no week heading, total-time line or change line |
| Report.StatsPartOf | src/report/generator.py:395-410 | the statistics block, with total time as cardio plus strength time |
| Report.ChangePartOf | src/report/generator.py:413-421 | two change lines when there is a previous week, none otherwise |
| Report.WeekSectionOf | src/report/generator.py:330-424 | a week's section: heading, body of the chosen format, statistics, changes, separator |
| Report.WeekSectionShape | src/report/generator.py:330-424 | the section spelled out block by block |
| Report.WeekSectionHeading | src/report/generator.py:330 | a section holds exactly its own week heading |
| Report.WeekSectionChanges | src/report/generator.py:413-421 | a section holds the change lines against the previous week and no others |
| Report.WeekSectionTotalTime | src/report/generator.py:398-403 | a section holds one total-time line, for cardio plus strength time |
| Report.AppendWeek | src/report/generator.py:328-424 | one loop turn appends the week's section and makes it the previous week |
| Report.WeeksOf | src/report/generator.py:327-425 | the loop over the weeks gives the title followed by every week's section, each compared with the one before |
| Report.GenerateMarkdownReport | src/report/generator.py:305-426 | the report lines of the summaries in the chosen units and format |
| Report.ReportWeeks | src/report/generator.py:324-330 | the report names every week exactly once, in ascending order of its Monday |
| Report.ReportChanges | src/report/generator.py:412-424 | no change lines for the first week, and two for each later week, against the week just before it |
| Report.ReportTotalTimes | src/report/generator.py:397-405 | each week's total workout time is its cardio time plus its strength time |

## Left out

- `app.py` (the Streamlit interface, caching, temporary files, progress and the timing
  warning) is not part of this model.
  - It passes `period_type` to `generate_markdown_report`, which does not accept it.
    There is therefore no period aggregation to model.
  - `detect_timezone` and `format_timezone_display`, which it imports, are not defined
    in `src/report/generator.py`.
- `src/api/uv_app.py` (an HTTP endpoint) and `src/pdf/generator.py` (a wrapper over a
  PDF library) are not part of this model.
- `read_csv` (file input) and `process_data_from_df` (pandas coercion) are not modelled.
- `get_available_timezones` is not modelled: its output depends on the pytz zone
  database.
- pytz zone conversion is the parameter `zone`, and `strptime` for each layout is the
  parameter `parse`. The model fixes the order in which the layouts are tried, not how
  each one reads digits.
- The `.1f`/`.2f` rendering, the Markdown text of each line and the final
  `"\n".join` are not modelled. The report is a sequence of structured lines.
- Floating-point arithmetic is modelled as exact real arithmetic: sums, products,
  divisions and divmod.
- The printed warnings of `process_data` and `seconds_to_time` are output only. Only the
  skip count is returned.
- Converters.SecondsToTime: takes a real, so the `ValueError`/`TypeError` branch for a
  non-numeric argument is not modelled.
- Entries.Clean: takes the numeric cells already read as numbers, so `float()` and
  `int()` failures on the weight, reps or distance cells are not modelled. The duration
  cell's empty and unreadable cases are modelled.
- Entries.IsTrueText: lower-cases ASCII letters only. No other character lower-cases to
  the letters of "true".
- Converters.ConvertUnits: requires a unit type from the table. An unknown type is a
  `KeyError` in the source.
- Validator.ValidateDataStructure: requires a frame in data-frame mode. Any other value
  there fails in the source on `data.columns`.
- Summarize.AccumDays: requires every listed day's week to exist already. The source
  guarantees this because lines 182-195 create all weeks before lines 220-301 run.
- Timeline minutes are ordered as numbers. This agrees with the source's ordering of
  `'%Y-%m-%d %H:%M'` strings for four-digit years.
