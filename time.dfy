/** The display-time helper of src/utils/time.ts: shift an instant by the
    timezone offset that the environment reports for a reference instant.

    Instants are millisecond time values; the offset is the integer number of
    minutes `getTimezoneOffset` returns (UTC minus local time). The
    environment's timezone rule is a parameter. */
module Time {

  /** `1000 * 60`. */
  const MsPerMinute: int := 1000 * 60

  /** The largest magnitude of a valid `Date` time value, 8.64e15 ms (the
      TimeClip bound of ECMAScript, section 21.4.1.31 of ECMA-262). */
  const MaxTimeValue: int := 8_640_000_000_000_000

  /** A JavaScript `Date`: a time value, or the invalid date. */
  datatype JsDate = Instant(ms: int) | InvalidDate

  /** `Math.abs` on integers. */
  function Abs(x: int): (r: nat)
    ensures r == x || r == -x
  {
    if x < 0 then -x else x
  }

  /** The `converted` value: both branches of the conditional are one formula,
      and the shift moves the instant later for a negative offset, earlier for
      a positive one, by exactly one minute per unit of offset. */
  function Shift(t: int, offset: int): (r: int)
    ensures r == t - MsPerMinute * offset
    ensures offset == 0 ==> r == t
    ensures offset < 0 <==> r > t
    ensures offset > 0 <==> r < t
    ensures Abs(r - t) == MsPerMinute * Abs(offset)
  {
    if offset < 0
    then t + 1000 * 60 * Abs(offset)
    else t - 1000 * 60 * Abs(offset)
  }

  /** `new Date(value)` on a number: values beyond the TimeClip bound give the
      invalid date. */
  function MakeDate(value: int): (d: JsDate)
    ensures d.Instant? <==> Abs(value) <= MaxTimeValue
    ensures d.Instant? ==> d.ms == value
  {
    if Abs(value) <= MaxTimeValue then Instant(value) else InvalidDate
  }

  /** `getTime(date, currentDate)` with both arguments given as time values;
      `timezoneOffset` is the environment's `getTimezoneOffset` rule. Both
      arguments pass through `new Date(...)` first: if either is out of range,
      `getTime()` or `getTimezoneOffset()` is NaN and so is the result. */
  function GetTime(date: int, currentDate: int, timezoneOffset: int -> int): (r: JsDate)
    ensures r.Instant? <==>
      && Abs(date) <= MaxTimeValue
      && Abs(currentDate) <= MaxTimeValue
      && Abs(date - MsPerMinute * timezoneOffset(currentDate)) <= MaxTimeValue
    ensures r.Instant? ==> r.ms == date - MsPerMinute * timezoneOffset(currentDate)
  {
    var sourceDate := MakeDate(date);
    var toDate := MakeDate(currentDate);
    if sourceDate.InvalidDate? || toDate.InvalidDate? then InvalidDate
    else
      var offset := timezoneOffset(toDate.ms);
      MakeDate(Shift(sourceDate.ms, offset))
  }

  /** An out-of-range date or reference instant gives the invalid date,
      whatever the offset. */
  lemma GetTimeInvalidInput(date: int, currentDate: int, timezoneOffset: int -> int)
    requires Abs(date) > MaxTimeValue || Abs(currentDate) > MaxTimeValue
    ensures GetTime(date, currentDate, timezoneOffset) == InvalidDate
  {
  }

  /** The result depends on the reference instant only through its validity
      and its offset. */
  lemma DependsOnlyOnOffset(date: int, c1: int, tz1: int -> int, c2: int, tz2: int -> int)
    requires MakeDate(c1).Instant? == MakeDate(c2).Instant?
    requires tz1(c1) == tz2(c2)
    ensures GetTime(date, c1, tz1) == GetTime(date, c2, tz2)
  {
  }

  /** Shifting by an offset and then by its negation restores the instant. */
  lemma ShiftRoundTrip(t: int, offset: int)
    ensures Shift(Shift(t, offset), -offset) == t
  {
  }

  /** The same for the whole helper: a valid reference whose offset is the
      negation of the first one takes a valid shifted date back to where it
      started. */
  lemma GetTimeRoundTrip(date: int, c: int, tz: int -> int, c': int, tz': int -> int)
    requires GetTime(date, c, tz).Instant?
    requires Abs(c') <= MaxTimeValue
    requires tz'(c') == -tz(c)
    ensures GetTime(GetTime(date, c, tz).ms, c', tz') == Instant(date)
  {
    ShiftRoundTrip(date, tz(c));
  }
}
