/** Unit conversion and duration formatting helpers (src/utils/converters.py). */
module Converters {

  /** Hours, minutes and seconds, rendered by the source as "<h>h <m>m <s>s". */
  datatype Clock = Clock(hours: int, minutes: int, seconds: int)

  /** `seconds_to_time`: negative input is clamped to zero, then the whole
      number of seconds is split by divmod into hours, minutes and seconds. */
  function SecondsToTime(seconds: real): (t: Clock)
    ensures seconds < 0.0 ==> t == Clock(0, 0, 0)
    ensures t.hours >= 0 && 0 <= t.minutes < 60 && 0 <= t.seconds < 60
    ensures seconds >= 0.0 ==> 3600 * t.hours + 60 * t.minutes + t.seconds == seconds.Floor
  {
    var s := if seconds < 0.0 then 0.0 else seconds;
    var hours := (s / 3600.0).Floor;
    var remainder := s - 3600.0 * hours as real;
    var minutes := (remainder / 60.0).Floor;
    var rest := remainder - 60.0 * minutes as real;
    assert 0.0 <= remainder < 3600.0;
    assert 0 <= minutes < 60;
    assert 0.0 <= rest < 60.0;
    assert s == (3600 * hours + 60 * minutes) as real + rest;
    FloorShift(rest, 3600 * hours + 60 * minutes);
    Clock(hours, minutes, rest.Floor)
  }

  /** Adding a whole number moves the floor by that number. */
  lemma FloorShift(r: real, k: int)
    ensures (k as real + r).Floor == k + r.Floor
  {
  }

  /** The split is unique: any clock whose fields are in range and add up to
      the whole seconds equals the one `seconds_to_time` produces. */
  lemma {:induction false} SecondsToTimeUnique(seconds: real, c: Clock)
    requires seconds >= 0.0
    requires c.hours >= 0 && 0 <= c.minutes < 60 && 0 <= c.seconds < 60
    requires 3600 * c.hours + 60 * c.minutes + c.seconds == seconds.Floor
    ensures SecondsToTime(seconds) == c
  {
    var t := SecondsToTime(seconds);
    var n := seconds.Floor;
    assert 60 * c.minutes + c.seconds < 3600;
    assert 60 * t.minutes + t.seconds < 3600;
    assert n / 3600 == c.hours && n % 3600 == 60 * c.minutes + c.seconds;
    assert n / 3600 == t.hours && n % 3600 == 60 * t.minutes + t.seconds;
  }

  /** One row of the `conversions` table: factor, metric label, imperial label. */
  datatype Conversion = Conversion(factor: real, metricUnit: string, imperialUnit: string)

  const Conversions: map<string, Conversion> :=
    map["weight" := Conversion(2.20462, "kg", "lbs"),
        "distance" := Conversion(0.621371, "km", "miles")]

  /** `convert_units`: with `toMetric` the value is divided by the factor and
      labelled with the metric unit, otherwise multiplied and labelled with the
      imperial unit. An unknown unit type is a KeyError in the source. */
  function ConvertUnits(value: real, unitType: string, toMetric: bool): (r: (real, string))
    requires unitType in Conversions
    ensures var c := Conversions[unitType];
      if toMetric then r.0 * c.factor == value && r.1 == c.metricUnit
      else r.0 == value * c.factor && r.1 == c.imperialUnit
  {
    var c := Conversions[unitType];
    if toMetric then (value / c.factor, c.metricUnit) else (value * c.factor, c.imperialUnit)
  }

  /** Converting to imperial and back to metric gives the value back. */
  lemma RoundTrip(value: real, unitType: string)
    requires unitType in Conversions
    ensures ConvertUnits(ConvertUnits(value, unitType, false).0, unitType, true).0 == value
  {
  }

  /** Converting to metric and back to imperial gives the value back. */
  lemma RoundTripMetric(value: real, unitType: string)
    requires unitType in Conversions
    ensures ConvertUnits(ConvertUnits(value, unitType, true).0, unitType, false).0 == value
  {
  }

  /** Both factors are positive, so conversion keeps the sign of the value. */
  lemma SignPreserved(value: real, unitType: string, toMetric: bool)
    requires unitType in Conversions
    ensures ConvertUnits(value, unitType, toMetric).0 > 0.0 <==> value > 0.0
    ensures ConvertUnits(value, unitType, toMetric).0 == 0.0 <==> value == 0.0
    ensures ConvertUnits(value, unitType, toMetric).0 < 0.0 <==> value < 0.0
  {
  }
}
