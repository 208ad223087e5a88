/** One logged set, its cleaning and its classification (src/report/generator.py, lines 87-150). */
module Entries {
  import opened Wrappers
  import opened Timestamps
  import Converters

  /** The 'Duration(s)' cell: empty, a number, or text `float` rejects. */
  datatype RawDuration = Blank | Number(value: real) | Unreadable

  /** An input record, with its numeric cells already read as numbers. */
  datatype Entry = Entry(
    date: string,
    exercise: string,
    reps: real,
    weightKg: real,
    distanceM: real,
    duration: RawDuration,
    isWarmup: string)

  /** Lines 115-118: an empty or unreadable duration counts as zero. */
  function DurationValue(d: RawDuration): real {
    if d.Number? then d.value else 0.0
  }

  /** Python's `int()` of a float: truncation toward zero. */
  function Truncate(x: real): (n: int)
    ensures x >= 0.0 ==> n as real <= x < n as real + 1.0
    ensures x < 0.0 ==> n as real - 1.0 < x <= n as real
  {
    if x >= 0.0 then x.Floor else -((-x).Floor)
  }

  /** `s.lower() == 'true'`, for the ASCII letters that can make up "true". */
  predicate IsTrueText(s: string) {
    |s| == 4 && Lower(s[0]) == 't' && Lower(s[1]) == 'r' && Lower(s[2]) == 'u' && Lower(s[3]) == 'e'
  }

  function Lower(c: char): char {
    if 'A' <= c <= 'Z' then (c as int + 32) as char else c
  }

  datatype Kind = Kind(isCardio: bool, isStrength: bool)

  /** Lines 125-137: cardio when it has both a duration and a distance, or
      lasts over 300 s with neither reps nor distance; strength when it is not
      cardio and matches one of five rep/weight/distance shapes. */
  function Classify(reps: int, weight: real, distanceM: real, duration: real): (k: Kind)
    ensures !(k.isCardio && k.isStrength)
  {
    var isCardio :=
      (duration > 0.0 && distanceM > 0.0) ||
      (reps == 0 && distanceM == 0.0 && duration > 300.0);
    var isStrength := !isCardio && (
      (reps == 0 && weight > 0.0) ||
      (reps > 0 && weight == 0.0 && duration == 0.0) ||
      (reps > 0 && weight > 0.0) ||
      (reps > 0 && distanceM == 0.0) ||
      (reps == 0 && distanceM == 0.0));
    Kind(isCardio, isStrength)
  }

  /** For non-negative measurements an entry is neither cardio nor strength
      exactly when it has distance but no reps, weight or duration. */
  lemma NeitherKind(reps: int, weight: real, distanceM: real, duration: real)
    requires reps >= 0 && weight >= 0.0 && distanceM >= 0.0 && duration >= 0.0
    ensures var k := Classify(reps, weight, distanceM, duration);
      !k.isCardio && !k.isStrength <==> reps == 0 && weight == 0.0 && distanceM > 0.0 && duration == 0.0
  {
  }

  /** An entry with negative reps is never strength. */
  lemma NegativeRepsNotStrength(reps: int, weight: real, distanceM: real, duration: real)
    requires reps < 0
    ensures !Classify(reps, weight, distanceM, duration).isStrength
  {
  }

  /** Classification only looks at the sign of the weight, so converting it
      by a positive factor (line 122) never changes the kind. */
  lemma ClassifyScaleInvariant(reps: int, weight: real, distanceM: real, duration: real, toMetric: bool)
    ensures Classify(reps, Converters.ConvertUnits(weight, "weight", toMetric).0, distanceM, duration)
         == Classify(reps, weight, distanceM, duration)
  {
    Converters.SignPreserved(weight, "weight", toMetric);
  }

  /** An entry after cleaning (the `cleaned_entry` dictionary). */
  datatype Cleaned = Cleaned(
    exercise: string,
    at: Moment,
    isCardio: bool,
    isStrength: bool,
    duration: real,
    weight: real,
    weightUnit: string,
    reps: int,
    distanceM: real,
    isWarmup: string)

  /** Lines 89-150 for one entry: parse and localize the date, read the
      numbers, convert the weight to pounds in imperial mode, classify. */
  function Clean(e: Entry, useMetric: bool, zone: Zone, parse: Parser): (r: Result<Cleaned, Error>)
    ensures r.Err? <==> ParseDate(DateText(e.date), parse).Err?
    ensures r.Err? ==> r.error == UnparsableDate(DateText(e.date))
    ensures r.Ok? ==> var c := r.value;
      && c.at == Localize(ParseDate(DateText(e.date), parse).value, zone)
      && Kind(c.isCardio, c.isStrength) == Classify(Truncate(e.reps), e.weightKg, e.distanceM, DurationValue(e.duration))
      && c.weight == (if useMetric then e.weightKg else Converters.ConvertUnits(e.weightKg, "weight", false).0)
      && c.exercise == e.exercise && c.reps == Truncate(e.reps) && c.distanceM == e.distanceM
      && c.duration == DurationValue(e.duration) && c.isWarmup == e.isWarmup
  {
    var utc :- ParseDate(DateText(e.date), parse);
    var local := Localize(utc, zone);
    var reps := Truncate(e.reps);
    var duration := DurationValue(e.duration);
    var weight := if useMetric then e.weightKg else Converters.ConvertUnits(e.weightKg, "weight", false).0;
    var kind := Classify(reps, weight, e.distanceM, duration);
    ClassifyScaleInvariant(reps, e.weightKg, e.distanceM, duration, false);
    Ok(Cleaned(e.exercise, local, kind.isCardio, kind.isStrength, duration, weight,
               if useMetric then "kg" else "lbs", reps, e.distanceM, e.isWarmup))
  }

  /** All entries cleaned in order; the first unparsable date stops everything. */
  function CleanAll(es: seq<Entry>, useMetric: bool, zone: Zone, parse: Parser): (r: Result<seq<Cleaned>, Error>)
    ensures r.Ok? ==> |r.value| == |es|
  {
    MapAll(es, e => Clean(e, useMetric, zone, parse))
  }

  /** Cleaning all entries succeeds exactly when every date is readable, and
      then yields each entry's cleaned form at its own position; otherwise
      the error names the first unreadable date. */
  lemma CleanAllElementwise(es: seq<Entry>, useMetric: bool, zone: Zone, parse: Parser)
    ensures CleanAll(es, useMetric, zone, parse).Ok? <==>
      forall i :: 0 <= i < |es| ==> ParseDate(DateText(es[i].date), parse).Ok?
    ensures CleanAll(es, useMetric, zone, parse).Ok? ==>
      forall i :: 0 <= i < |es| ==> CleanAll(es, useMetric, zone, parse).value[i] == Clean(es[i], useMetric, zone, parse).value
  {
    MapAllElementwise(es, e => Clean(e, useMetric, zone, parse));
  }

  lemma CleanAllFirstError(es: seq<Entry>, useMetric: bool, zone: Zone, parse: Parser, k: nat)
    requires k < |es| && ParseDate(DateText(es[k].date), parse).Err?
    requires forall i :: 0 <= i < k ==> ParseDate(DateText(es[i].date), parse).Ok?
    ensures CleanAll(es, useMetric, zone, parse) == Err(UnparsableDate(DateText(es[k].date)))
  {
    MapAllFirstError(es, e => Clean(e, useMetric, zone, parse), k);
  }
}
