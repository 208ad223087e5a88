/** `summarize_by_week` (src/report/generator.py, lines 65-303): the three
    passes over the entries and the day table, and what the resulting weekly
    summaries hold. */
module Summarize {
  import opened Wrappers
  import opened Seqs
  import opened Timestamps
  import opened Entries
  import opened Sessions
  import opened Days
  import opened Weekly

  /** The strength time of a listed day. */
  function StrengthOf(byDay: map<int, DayData>): int -> real {
    d => if d in byDay then SessionsDuration(byDay[d].sessions) else 0.0
  }

  /** Lines 181-217: a summary per week key of the days, first to last;
      each day adds the durations of its sessions to its week's strength time. */
  function InitWeeks(order: seq<int>, byDay: map<int, DayData>): map<WeekKey, WeekSummary> {
    if order == [] then map[]
    else
      var m := InitWeeks(order[..|order| - 1], byDay);
      var d := order[|order| - 1];
      if d in byDay then
        var w := byDay[d].week;
        var s := if w in m then m[w] else EmptySummary;
        m[w := s.(strength := s.strength + SessionsDuration(byDay[d].sessions))]
      else m
  }

  /** The loop at lines 182-217. */
  method InitSummaries(t: Days) returns (m: map<WeekKey, WeekSummary>)
    requires forall d :: d in t.order ==> d in t.byDay
    ensures m == InitWeeks(t.order, t.byDay)
  {
    m := map[];
    for i := 0 to |t.order|
      invariant m == InitWeeks(t.order[..i], t.byDay)
    {
      var d := t.order[i];
      var dd := t.byDay[d];
      var w := dd.week;
      InitWeeksStep(t.order, t.byDay, i);
      if w !in m {
        m := m[w := EmptySummary];
      }
      m := AddSessions(m, w, dd.sessions);
    }
    assert t.order[..|t.order|] == t.order;
  }

  /** Lines 198-217: the durations of a day's non-empty sessions added to its
      week's strength time. */
  method AddSessions(m: map<WeekKey, WeekSummary>, w: WeekKey, sessions: seq<Session>) returns (r: map<WeekKey, WeekSummary>)
    requires w in m
    ensures r == m[w := m[w].(strength := m[w].strength + SessionsDuration(sessions))]
  {
    r := m;
    assert m[w := m[w].(strength := m[w].strength + SessionsDuration(sessions[..0]))] == m;
    for j := 0 to |sessions|
      invariant r == m[w := m[w].(strength := m[w].strength + SessionsDuration(sessions[..j]))]
    {
      var session := sessions[j];
      assert sessions[..j + 1][..j] == sessions[..j];
      if |session| > 0 {
        var duration := SessionDuration(session);
        r := r[w := r[w].(strength := r[w].strength + duration)];
      }
    }
    assert sessions[..|sessions|] == sessions;
  }

  /** Day `i` of the order adds its sessions to its week, creating the week first. */
  lemma InitWeeksStep(order: seq<int>, byDay: map<int, DayData>, i: nat)
    requires i < |order| && order[i] in byDay
    ensures var m := InitWeeks(order[..i], byDay);
      var dd := byDay[order[i]];
      var base := if dd.week in m then m else m[dd.week := EmptySummary];
      InitWeeks(order[..i + 1], byDay) == base[dd.week := base[dd.week].(strength := base[dd.week].strength + SessionsDuration(dd.sessions))]
  {
    assert order[..i + 1][..i] == order[..i];
  }

  function DayInWeek(byDay: map<int, DayData>, w: WeekKey): int -> bool {
    d => d in byDay && byDay[d].week == w
  }

  /** The weeks created are those of the days listed. */
  lemma {:induction false} InitWeeksKeys(order: seq<int>, byDay: map<int, DayData>)
    ensures InitWeeks(order, byDay).Keys == (set d | d in order && d in byDay :: byDay[d].week)
  {
    if order != [] {
      var init, d := order[..|order| - 1], order[|order| - 1];
      InitWeeksKeys(init, byDay);
      assert order == init + [d];
      assert (set x | x in order && x in byDay :: byDay[x].week) ==
        (set x | x in init && x in byDay :: byDay[x].week) + (if d in byDay then {byDay[d].week} else {});
    }
  }

  /** Each week starts empty but for the strength time of its days. */
  lemma {:induction false} InitWeeksMeaning(order: seq<int>, byDay: map<int, DayData>, w: WeekKey)
    requires w in InitWeeks(order, byDay)
    ensures InitWeeks(order, byDay)[w] == EmptySummary.(strength := SumOf(Filter(order, DayInWeek(byDay, w)), StrengthOf(byDay)))
  {
    var init, d := order[..|order| - 1], order[|order| - 1];
    var m := InitWeeks(init, byDay);
    var p := DayInWeek(byDay, w);
    var before := Filter(init, p);
    FilterLast(order, p);
    if p(d) {
      assert Filter(order, p) == before + [d];
      SumOfAppend(before, [d], StrengthOf(byDay));
      SumOfSingleton(d, StrengthOf(byDay));
      if w in m {
        InitWeeksMeaning(init, byDay, w);
      } else {
        InitWeeksKeys(init, byDay);
        assert forall x :: x in init && x in byDay ==> byDay[x].week in m;
        FilterNone(init, p);
      }
    } else {
      assert Filter(order, p) == before;
      assert w in m && InitWeeks(order, byDay)[w] == m[w];
      InitWeeksMeaning(init, byDay, w);
    }
  }

  /** Lines 219-301 for the listed days, first to last: each day's entries
      update its week's summary. */
  function AccumDays(m: map<WeekKey, WeekSummary>, order: seq<int>, byDay: map<int, DayData>, useMetric: bool): (r: map<WeekKey, WeekSummary>)
    requires forall d :: d in order && d in byDay ==> byDay[d].week in m
    ensures r.Keys == m.Keys
  {
    if order == [] then m
    else
      var r := AccumDays(m, order[..|order| - 1], byDay, useMetric);
      var d := order[|order| - 1];
      if d in byDay then
        var w := byDay[d].week;
        r[w := StatsFold(r[w], byDay[d].exercises, useMetric)]
      else r
  }

  /** The loop at lines 224-301 for one day: each entry updates its week's summary. */
  method AccumulateDay(m: map<WeekKey, WeekSummary>, w: WeekKey, es: seq<Cleaned>, useMetric: bool) returns (r: map<WeekKey, WeekSummary>)
    requires w in m
    ensures r == m[w := StatsFold(m[w], es, useMetric)]
  {
    r := m;
    assert m[w := StatsFold(m[w], es[..0], useMetric)] == m;
    for j := 0 to |es|
      invariant r == m[w := StatsFold(m[w], es[..j], useMetric)]
    {
      var c := es[j];
      AccumulateStep(m, w, es, j, useMetric);
      r := r[w := Step(r[w], c, useMetric)];
    }
    assert es[..|es|] == es;
  }

  /** One entry of the day folded into its week's summary. */
  lemma AccumulateStep(m: map<WeekKey, WeekSummary>, w: WeekKey, es: seq<Cleaned>, j: nat, useMetric: bool)
    requires w in m && j < |es|
    ensures var r := m[w := StatsFold(m[w], es[..j], useMetric)];
      r[w := Step(r[w], es[j], useMetric)] == m[w := StatsFold(m[w], es[..j + 1], useMetric)]
  {
    StatsFoldLast(m[w], es[..j + 1], useMetric);
    assert es[..j + 1][..j] == es[..j];
  }

  /** The loop at lines 220-301. */
  method AccumulateStats(m: map<WeekKey, WeekSummary>, t: Days, useMetric: bool) returns (r: map<WeekKey, WeekSummary>)
    requires forall d :: d in t.order ==> d in t.byDay && t.byDay[d].week in m
    ensures r == AccumDays(m, t.order, t.byDay, useMetric)
  {
    r := m;
    for i := 0 to |t.order|
      invariant r == AccumDays(m, t.order[..i], t.byDay, useMetric)
    {
      var d := t.order[i];
      assert d in t.order;
      var dd := t.byDay[d];
      r := AccumulateDay(r, dd.week, dd.exercises, useMetric);
      assert t.order[..i + 1][..i] == t.order[..i];
    }
    assert t.order[..|t.order|] == t.order;
  }

  /** The summaries of the cleaned entries: file them by day, create the
      weeks with their strength time, then accumulate the entries. */
  function WeeklySummaries(cs: seq<Cleaned>, useMetric: bool): map<WeekKey, WeekSummary> {
    var t := GroupByDay(cs);
    InitWeeksKeys(t.order, t.byDay);
    AccumDays(InitWeeks(t.order, t.byDay), t.order, t.byDay, useMetric)
  }

  /** The value `summarize_by_week` returns, or the parse error it raises. */
  function Summaries(entries: seq<Entry>, useMetric: bool, zone: Zone, parse: Parser): Result<map<WeekKey, WeekSummary>, Error> {
    match CleanAll(entries, useMetric, zone, parse)
    case Err(e) => Err(e)
    case Ok(cs) => Ok(WeeklySummaries(cs, useMetric))
  }

  /** A date that cannot be read stops the cleaning of all entries with its error. */
  lemma CleanStops(entries: seq<Entry>, useMetric: bool, zone: Zone, parse: Parser, i: nat, cs: seq<Cleaned>)
    requires i < |entries| && CleanAll(entries[..i], useMetric, zone, parse) == Ok(cs)
    requires Clean(entries[i], useMetric, zone, parse).Err?
    ensures CleanAll(entries, useMetric, zone, parse) == Err(Clean(entries[i], useMetric, zone, parse).error)
  {
    CleanAllElementwise(entries[..i], useMetric, zone, parse);
    assert forall j :: 0 <= j < i ==> entries[..i][j] == entries[j];
    CleanAllFirstError(entries, useMetric, zone, parse, i);
  }

  /** A readable date extends the cleaned entries by one. */
  lemma CleanGoesOn(entries: seq<Entry>, useMetric: bool, zone: Zone, parse: Parser, i: nat, cs: seq<Cleaned>)
    requires i < |entries| && CleanAll(entries[..i], useMetric, zone, parse) == Ok(cs)
    requires Clean(entries[i], useMetric, zone, parse).Ok?
    ensures CleanAll(entries[..i + 1], useMetric, zone, parse) == Ok(cs + [Clean(entries[i], useMetric, zone, parse).value])
  {
    MapAllSnoc(entries, e => Clean(e, useMetric, zone, parse), i, cs);
  }

  /** Lines 82-179: clean each entry and file it under its day, or stop at
      the first date that cannot be read. */
  method FileEntries(entries: seq<Entry>, useMetric: bool, zone: Zone, parse: Parser) returns (r: Result<Days, Error>)
    ensures CleanAll(entries, useMetric, zone, parse).Err? ==> r == Err(CleanAll(entries, useMetric, zone, parse).error)
    ensures CleanAll(entries, useMetric, zone, parse).Ok? ==> r == Ok(GroupByDay(CleanAll(entries, useMetric, zone, parse).value))
  {
    var t := Days([], map[]);
    ghost var cs: seq<Cleaned> := [];
    for i := 0 to |entries|
      invariant CleanAll(entries[..i], useMetric, zone, parse) == Ok(cs)
      invariant t == GroupByDay(cs)
    {
      var cleaned := Clean(entries[i], useMetric, zone, parse);
      if cleaned.Err? {
        CleanStops(entries, useMetric, zone, parse, i, cs);
        return Err(cleaned.error);
      }
      t := FileEntry(t, cleaned.value);
      CleanGoesOn(entries, useMetric, zone, parse, i, cs);
      cs := cs + [cleaned.value];
    }
    assert entries[..|entries|] == entries;
    return Ok(t);
  }

  /** Lines 82-303. */
  method SummarizeByWeek(entries: seq<Entry>, useMetric: bool, zone: Zone, parse: Parser)
      returns (r: Result<map<WeekKey, WeekSummary>, Error>)
    ensures r == Summaries(entries, useMetric, zone, parse)
  {
    var filed := FileEntries(entries, useMetric, zone, parse);
    if filed.Err? {
      return Err(filed.error);
    }
    var t := filed.value;
    GroupByDayOrder(CleanAll(entries, useMetric, zone, parse).value);
    var weeks := InitSummaries(t);
    InitWeeksKeys(t.order, t.byDay);
    weeks := AccumulateStats(weeks, t, useMetric);
    return Ok(weeks);
  }

  function InWeek(w: WeekKey): Cleaned -> bool {
    c => WeekOf(Day(c)) == w
  }

  /** Every day filed in the table has its own week key and only its own entries. */
  predicate WellFiled(byDay: map<int, DayData>) {
    forall d :: d in byDay ==> byDay[d].week == WeekOf(d) && forall c :: c in byDay[d].exercises ==> Day(c) == d
  }

  lemma GroupByDayWellFiled(cs: seq<Cleaned>)
    ensures WellFiled(GroupByDay(cs).byDay)
  {
    forall d | d in GroupByDay(cs).byDay {
      GroupByDayContents(cs, d);
    }
  }

  /** The passes over the days give each week the entries of its days, in table order. */
  lemma {:induction false} AccumDaysWeek(m: map<WeekKey, WeekSummary>, order: seq<int>, byDay: map<int, DayData>, useMetric: bool, w: WeekKey)
    requires forall d :: d in order && d in byDay ==> byDay[d].week in m
    requires WellFiled(byDay) && w in m
    ensures AccumDays(m, order, byDay, useMetric)[w] == StatsFold(m[w], Filter(Flat(order, byDay), InWeek(w)), useMetric)
  {
    if order != [] {
      var init, d := order[..|order| - 1], order[|order| - 1];
      AccumDaysWeek(m, init, byDay, useMetric, w);
      var r := AccumDays(m, init, byDay, useMetric);
      var before := Filter(Flat(init, byDay), InWeek(w));
      assert r[w] == StatsFold(m[w], before, useMetric);
      if d in byDay {
        AccumDaysWeekStep(m, order, byDay, useMetric, w);
      } else {
        assert AccumDays(m, order, byDay, useMetric) == r;
        assert Flat(order, byDay) == Flat(init, byDay) + [];
        assert Flat(order, byDay) == Flat(init, byDay);
      }
    }
  }

  lemma AccumDaysWeekStep(m: map<WeekKey, WeekSummary>, order: seq<int>, byDay: map<int, DayData>, useMetric: bool, w: WeekKey)
    requires forall d :: d in order && d in byDay ==> byDay[d].week in m
    requires WellFiled(byDay) && w in m
    requires order != [] && order[|order| - 1] in byDay
    requires AccumDays(m, order[..|order| - 1], byDay, useMetric)[w] ==
      StatsFold(m[w], Filter(Flat(order[..|order| - 1], byDay), InWeek(w)), useMetric)
    ensures AccumDays(m, order, byDay, useMetric)[w] == StatsFold(m[w], Filter(Flat(order, byDay), InWeek(w)), useMetric)
  {
    var init, d := order[..|order| - 1], order[|order| - 1];
    var r := AccumDays(m, init, byDay, useMetric);
    var before := Filter(Flat(init, byDay), InWeek(w));
    var exs := byDay[d].exercises;
    var wd := byDay[d].week;
    AccumDaysLast(m, order, byDay, useMetric);
    FilterAppend(Flat(init, byDay), exs, InWeek(w));
    DayEntriesInWeek(byDay, d, w);
    if wd == w {
      StatsFoldAppend(m[w], before, exs, useMetric);
    } else {
      assert before + [] == before;
    }
  }

  /** The last listed day updates its own week, and its entries end the flattened table. */
  lemma AccumDaysLast(m: map<WeekKey, WeekSummary>, order: seq<int>, byDay: map<int, DayData>, useMetric: bool)
    requires forall d :: d in order && d in byDay ==> byDay[d].week in m
    requires order != [] && order[|order| - 1] in byDay
    ensures var init, dd := order[..|order| - 1], byDay[order[|order| - 1]];
      var r := AccumDays(m, init, byDay, useMetric);
      && AccumDays(m, order, byDay, useMetric) == r[dd.week := StatsFold(r[dd.week], dd.exercises, useMetric)]
      && Flat(order, byDay) == Flat(init, byDay) + dd.exercises
  {
  }

  /** A well-filed day's entries all belong to its week and to no other. */
  lemma DayEntriesInWeek(byDay: map<int, DayData>, d: int, w: WeekKey)
    requires WellFiled(byDay) && d in byDay
    ensures Filter(byDay[d].exercises, InWeek(w)) == if byDay[d].week == w then byDay[d].exercises else []
  {
    if byDay[d].week == w {
      FilterAll(byDay[d].exercises, InWeek(w));
    } else {
      FilterNone(byDay[d].exercises, InWeek(w));
    }
  }

  /** A week starts with its days' strength time and then receives the
      entries of its days. */
  lemma WeeklyLink(cs: seq<Cleaned>, useMetric: bool, w: WeekKey)
    requires w in WeeklySummaries(cs, useMetric)
    ensures var t := GroupByDay(cs);
      WeeklySummaries(cs, useMetric)[w] ==
        StatsFold(EmptySummary.(strength := SumOf(Filter(t.order, DayInWeek(t.byDay, w)), StrengthOf(t.byDay))),
                  Filter(Flat(t.order, t.byDay), InWeek(w)), useMetric)
  {
    var t := GroupByDay(cs);
    InitWeeksKeys(t.order, t.byDay);
    GroupByDayWellFiled(cs);
    AccumDaysWeek(InitWeeks(t.order, t.byDay), t.order, t.byDay, useMetric, w);
    InitWeeksMeaning(t.order, t.byDay, w);
  }

  /** Summing over a week's entries in table order is summing over them in input order. */
  lemma WeekSum(cs: seq<Cleaned>, w: WeekKey, f: Cleaned -> real)
    ensures var t := GroupByDay(cs);
      SumOf(Filter(Flat(t.order, t.byDay), InWeek(w)), f) == SumOf(Filter(cs, InWeek(w)), f)
  {
    var t := GroupByDay(cs);
    FlatIsPermutation(cs);
    SumOfFilter(Flat(t.order, t.byDay), InWeek(w), f);
    SumOfPermutation(Flat(t.order, t.byDay), cs, Masked(InWeek(w), f));
    SumOfFilter(cs, InWeek(w), f);
  }
}
