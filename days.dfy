/** The `workouts_by_date` table: cleaned entries grouped by local day, in
    order of first appearance (src/report/generator.py, lines 86-179). */
module Days {
  import opened Seqs
  import opened Timestamps
  import opened Entries
  import opened Sessions

  /** One local day: its entries in order, its week key and its sessions. */
  datatype DayData = DayData(exercises: seq<Cleaned>, week: WeekKey, sessions: seq<Session>)

  /** The table, with the days in the order they were first seen. */
  datatype Days = Days(order: seq<int>, byDay: map<int, DayData>)

  function Day(c: Cleaned): int {
    DayOf(c.at)
  }

  function OnDay(d: int): Cleaned -> bool {
    c => Day(c) == d
  }

  /** Lines 153-179: file one entry under its local day, creating the day
      (with its week key) when it is new; a strength entry is also placed in
      one of the day's sessions. */
  function AddEntry(t: Days, c: Cleaned): Days {
    var d := Day(c);
    var dd := if d in t.byDay then t.byDay[d] else DayData([], WeekOf(d), []);
    var dd' := DayData(dd.exercises + [c], dd.week, if c.isStrength then Place(dd.sessions, c) else dd.sessions);
    Days(if d in t.byDay then t.order else t.order + [d], t.byDay[d := dd'])
  }

  /** The table after all entries, filed first to last. */
  function GroupByDay(cs: seq<Cleaned>): Days {
    if cs == [] then Days([], map[])
    else AddEntry(GroupByDay(cs[..|cs| - 1]), cs[|cs| - 1])
  }

  /** Lines 153-179: file one entry, placing a strength entry with the session loop. */
  method FileEntry(t: Days, c: Cleaned) returns (t': Days)
    ensures t' == AddEntry(t, c)
  {
    var d := Day(c);
    t' := t;
    if d !in t'.byDay {
      t' := Days(t'.order + [d], t'.byDay[d := DayData([], WeekOf(d), [])]);
    }
    var dd := t'.byDay[d];
    var sessions := dd.sessions;
    if c.isStrength {
      sessions := PlaceStrength(sessions, c);
    }
    t' := t'.(byDay := t'.byDay[d := DayData(dd.exercises + [c], dd.week, sessions)]);
  }

  /** The days listed are those of the entries, each listed once. */
  lemma {:induction false} GroupByDayOrder(cs: seq<Cleaned>)
    ensures Distinct(GroupByDay(cs).order)
    ensures GroupByDay(cs).byDay.Keys == (set d | d in GroupByDay(cs).order)
    ensures GroupByDay(cs).byDay.Keys == (set c | c in cs :: Day(c))
  {
    if cs != [] {
      var init, c := cs[..|cs| - 1], cs[|cs| - 1];
      GroupByDayOrder(init);
      assert cs == init + [c];
      assert (set x | x in cs :: Day(x)) == (set x | x in init :: Day(x)) + {Day(c)};
    }
  }

  /** Each day holds exactly its own entries in input order, the week key of
      that day, and the sessions built from those entries. */
  lemma {:induction false} GroupByDayContents(cs: seq<Cleaned>, d: int)
    requires d in GroupByDay(cs).byDay
    ensures GroupByDay(cs).byDay[d].exercises == Filter(cs, OnDay(d))
    ensures GroupByDay(cs).byDay[d].week == WeekOf(d)
    ensures GroupByDay(cs).byDay[d].sessions == Sessionize(GroupByDay(cs).byDay[d].exercises)
  {
    var init, c := cs[..|cs| - 1], cs[|cs| - 1];
    var t := GroupByDay(init);
    if d in t.byDay {
      GroupByDayContents(init, d);
    } else {
      GroupByDayOrder(init);
      FilterNone(init, OnDay(d));
    }
    AddEntryDay(t, c, d, Filter(init, OnDay(d)));
    FilterLast(cs, OnDay(d));
  }

  /** The record of day `d` holds the entries `es`, their week and their sessions. */
  ghost predicate DayHolds(dd: DayData, es: seq<Cleaned>, d: int) {
    dd.exercises == es && dd.week == WeekOf(d) && dd.sessions == Sessionize(es)
  }

  /** Filing one entry extends its own day's record by it and leaves the other days alone. */
  lemma AddEntryDay(t: Days, c: Cleaned, d: int, es: seq<Cleaned>)
    requires d in AddEntry(t, c).byDay
    requires d in t.byDay ==> DayHolds(t.byDay[d], es, d)
    requires d !in t.byDay ==> es == []
    ensures DayHolds(AddEntry(t, c).byDay[d], es + (if Day(c) == d then [c] else []), d)
  {
    if Day(c) == d {
      assert (es + [c])[..|es|] == es;
    }
  }

  /** Two entries of the same local day always carry the same week key
      (lines 109 and 153-158). */
  lemma SameDaySameWeek(cs: seq<Cleaned>, c1: Cleaned, c2: Cleaned)
    requires c1 in cs && c2 in cs && Day(c1) == Day(c2)
    ensures Day(c1) in GroupByDay(cs).byDay
    ensures GroupByDay(cs).byDay[Day(c1)].week == WeekOf(Day(c1)) == WeekOf(Day(c2))
    ensures c1 in GroupByDay(cs).byDay[Day(c1)].exercises && c2 in GroupByDay(cs).byDay[Day(c1)].exercises
  {
    GroupByDayOrder(cs);
    GroupByDayContents(cs, Day(c1));
  }

  /** All entries, day by day in table order: the order in which lines
      220-224 visit them. */
  function Flat(order: seq<int>, byDay: map<int, DayData>): seq<Cleaned> {
    if order == [] then []
    else
      var d := order[|order| - 1];
      Flat(order[..|order| - 1], byDay) + (if d in byDay then byDay[d].exercises else [])
  }

  lemma {:induction false} FlatAgree(order: seq<int>, m1: map<int, DayData>, m2: map<int, DayData>)
    requires forall i :: 0 <= i < |order| ==> (order[i] in m1 <==> order[i] in m2)
    requires forall i :: 0 <= i < |order| && order[i] in m1 ==> m1[order[i]].exercises == m2[order[i]].exercises
    ensures Flat(order, m1) == Flat(order, m2)
  {
    if order != [] {
      FlatAgree(order[..|order| - 1], m1, m2);
    }
  }

  lemma {:induction false} FlatGrow(order: seq<int>, m1: map<int, DayData>, m2: map<int, DayData>, d: int, c: Cleaned)
    requires Distinct(order) && d in order && d in m1 && d in m2
    requires m2[d].exercises == m1[d].exercises + [c]
    requires forall i :: 0 <= i < |order| && order[i] != d ==> (order[i] in m1 <==> order[i] in m2)
    requires forall i :: 0 <= i < |order| && order[i] != d && order[i] in m1 ==> m1[order[i]].exercises == m2[order[i]].exercises
    ensures multiset(Flat(order, m2)) == multiset(Flat(order, m1)) + multiset{c}
  {
    var init, last := order[..|order| - 1], order[|order| - 1];
    if last == d {
      assert forall i :: 0 <= i < |init| ==> init[i] != d;
      FlatAgree(init, m1, m2);
    } else {
      assert d in init;
      FlatGrow(init, m1, m2, d, c);
    }
  }

  /** Visiting the table day by day meets every entry exactly once. */
  lemma {:induction false} FlatIsPermutation(cs: seq<Cleaned>)
    ensures multiset(Flat(GroupByDay(cs).order, GroupByDay(cs).byDay)) == multiset(cs)
  {
    if cs != [] {
      var init, c := cs[..|cs| - 1], cs[|cs| - 1];
      assert cs == init + [c];
      FlatIsPermutation(init);
      GroupByDayOrder(init);
      var t, t' := GroupByDay(init), GroupByDay(cs);
      var d := Day(c);
      if d in t.byDay {
        FlatGrow(t.order, t.byDay, t'.byDay, d, c);
      } else {
        FlatAgree(t.order, t.byDay, t'.byDay);
        assert t'.order == t.order + [d];
        assert t'.order[..|t'.order| - 1] == t.order;
      }
    }
  }
}
