/** From a logged date text to a local day and week (src/report/generator.py, lines 89-109). */
module Timestamps {
  import opened Wrappers

  /** The three `strptime` layouts, tried in this order. */
  datatype Format =
    | WithSeconds   // '%Y-%m-%d %H:%M:%S'
    | WithMinutes   // '%Y-%m-%d %H:%M'
    | DateOnly      // '%Y-%m-%d'

  const Formats: seq<Format> := [WithSeconds, WithMinutes, DateOnly]

  /** `strptime` for one layout: the naive time it reads, as seconds since
      1970-01-01 00:00:00, or None when the text does not match the layout. */
  type Parser = (Format, string) -> Option<int>

  /** A time zone: UTC seconds to local wall-clock seconds (what pytz's
      `astimezone` computes). */
  type Zone = int -> int

  datatype Error = UnparsableDate(text: string)

  /** Characters Python's `str.strip()` removes. */
  predicate IsSpace(c: char) {
    || '\t' <= c <= '\r'
    || '\U{1c}' <= c <= ' '
    || c == '\U{85}' || c == '\U{a0}' || c == '\U{1680}'
    || '\U{2000}' <= c <= '\U{200a}'
    || c == '\U{2028}' || c == '\U{2029}' || c == '\U{202f}' || c == '\U{205f}' || c == '\U{3000}'
  }

  /** The text before the first occurrence of `sep` (`s.split(sep)[0]`). */
  function BeforeFirst(s: string, sep: char): (r: string)
    ensures |r| <= |s| && r == s[..|r|]
    ensures sep !in r
    ensures |r| < |s| ==> s[|r|] == sep
  {
    if s == [] || s[0] == sep then [] else [s[0]] + BeforeFirst(s[1..], sep)
  }

  function LeadingSpaces(s: string): (n: nat)
    ensures n <= |s|
    ensures forall k :: 0 <= k < n ==> IsSpace(s[k])
    ensures n < |s| ==> !IsSpace(s[n])
  {
    if s == [] || !IsSpace(s[0]) then 0 else 1 + LeadingSpaces(s[1..])
  }

  function TrailingSpaces(s: string): (n: nat)
    ensures n <= |s|
    ensures forall k :: |s| - n <= k < |s| ==> IsSpace(s[k])
    ensures n < |s| ==> !IsSpace(s[|s| - n - 1])
  {
    if s == [] || !IsSpace(s[|s| - 1]) then 0 else 1 + TrailingSpaces(s[..|s| - 1])
  }

  /** `str.strip()`: drop whitespace at both ends. */
  function Strip(s: string): (r: string)
    ensures r == [] || (!IsSpace(r[0]) && !IsSpace(r[|r| - 1]))
    ensures |r| <= |s|
  {
    var t := s[LeadingSpaces(s)..];
    t[..|t| - TrailingSpaces(t)]
  }

  /** Text without whitespace at either end is left as it is. */
  lemma StripTrimmed(s: string)
    requires s == [] || (!IsSpace(s[0]) && !IsSpace(s[|s| - 1]))
    ensures Strip(s) == s
  {
  }

  /** Lines 89-92: from the first '+' on, the text is cut off and the rest stripped. */
  function DateText(s: string): (r: string)
    ensures '+' !in r
    ensures '+' !in s ==> r == s
  {
    if '+' in s then Strip(BeforeFirst(s, '+')) else s
  }

  /** Lines 94-103: try the three layouts in order; the last failure is fatal. */
  function ParseDate(text: string, parse: Parser): (r: Result<int, Error>)
    ensures r.Ok? ==> exists i :: 0 <= i < |Formats| && parse(Formats[i], text) == Some(r.value)
                                  && forall j :: 0 <= j < i ==> parse(Formats[j], text).None?
    ensures r.Err? <==> forall i :: 0 <= i < |Formats| ==> parse(Formats[i], text).None?
    ensures r.Err? ==> r.error == UnparsableDate(text)
  {
    match parse(WithSeconds, text)
    case Some(t) => assert Formats[0] == WithSeconds; Ok(t)
    case None =>
      match parse(WithMinutes, text)
      case Some(t) => assert Formats[1] == WithMinutes; Ok(t)
      case None =>
        match parse(DateOnly, text)
        case Some(t) => assert Formats[2] == DateOnly; Ok(t)
        case None => Err(UnparsableDate(text))
  }

  /** A zone-aware time: the UTC instant and the local wall clock, both in
      seconds since 1970-01-01. Python compares and subtracts aware times by
      their instant. */
  datatype Moment = Moment(instant: int, wall: int)

  /** Line 106: read the naive time as UTC and shift it into the zone. */
  function Localize(utc: int, zone: Zone): (m: Moment)
    ensures m.instant == utc
  {
    Moment(utc, zone(utc))
  }

  const SecondsPerDay := 86400

  /** The local calendar day, as days since 1970-01-01 (line 107). */
  function DayOf(m: Moment): int {
    m.wall / SecondsPerDay
  }

  /** Python's `weekday()`: Monday is 0; 1970-01-01 was a Thursday (3). */
  function Weekday(day: int): (w: int)
    ensures 0 <= w < 7
  {
    (day + 3) % 7
  }

  /** A week key "<Monday> to <Monday + 6>", held as the Monday's day number. */
  datatype WeekKey = WeekKey(monday: int) {
    function Sunday(): int {
      monday + 6
    }
  }

  /** Lines 108-109: the week of a day starts on the Monday on or before it. */
  function WeekOf(day: int): (k: WeekKey)
    ensures Weekday(k.monday) == 0
    ensures k.monday <= day <= k.Sunday()
  {
    WeekKey(day - Weekday(day))
  }

  /** Every day of a week has that week's key: week keys partition the days. */
  lemma WeekOfEveryDay(k: WeekKey, day: int)
    requires Weekday(k.monday) == 0
    requires k.monday <= day <= k.Sunday()
    ensures WeekOf(day) == k
  {
    assert Weekday(day) == day - k.monday;
  }

  /** Two different week keys cover disjoint runs of days. */
  lemma {:induction false} WeeksDisjoint(d1: int, d2: int)
    requires WeekOf(d1) != WeekOf(d2)
    ensures WeekOf(d1).Sunday() < WeekOf(d2).monday || WeekOf(d2).Sunday() < WeekOf(d1).monday
  {
    var k1, k2 := WeekOf(d1), WeekOf(d2);
    if k1.monday <= k2.monday <= k1.Sunday() {
      WeekOfEveryDay(k1, k2.monday);
    } else if k2.monday <= k1.monday <= k2.Sunday() {
      WeekOfEveryDay(k2, k1.monday);
    }
  }

  /** The timeline key '%Y-%m-%d %H:%M': minutes since 1970-01-01, local. */
  function MinuteKey(m: Moment): int {
    m.wall / 60
  }

  /** The clock time '%H:%M', as minutes since local midnight. */
  function ClockMinute(m: Moment): (t: int)
    ensures 0 <= t < 1440
  {
    (m.wall % SecondsPerDay) / 60
  }

  /** A timeline key names one minute of one local day, and its clock reading. */
  lemma MinuteKeyWithinDay(m: Moment)
    ensures MinuteKey(m) == 1440 * DayOf(m) + ClockMinute(m)
  {
  }
}
