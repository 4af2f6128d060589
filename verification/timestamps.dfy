/** Calendar date-times at second resolution, and the fixed-width text form
    `YYYY-MM-DD HH:MM:SS` in which the quote provider keys its series. */
module Timestamps {
  import opened Wrappers
  import opened Digits

  datatype DateTime = DateTime(year: int, month: int, day: int, hour: int, minute: int, second: int)

  predicate IsLeapYear(y: int) {
    y % 4 == 0 && (y % 100 != 0 || y % 400 == 0)
  }

  function DaysInMonth(y: int, m: int): int
    requires 1 <= m <= 12
  {
    if m == 2 then (if IsLeapYear(y) then 29 else 28)
    else if m == 4 || m == 6 || m == 9 || m == 11 then 30
    else 31
  }

  /** The values a Python `datetime` accepts: years 1..9999 and a real calendar day. */
  predicate Valid(dt: DateTime) {
    && 1 <= dt.year <= 9999
    && 1 <= dt.month <= 12
    && 1 <= dt.day <= DaysInMonth(dt.year, dt.month)
    && 0 <= dt.hour <= 23
    && 0 <= dt.minute <= 59
    && 0 <= dt.second <= 59
  }

  function Format(dt: DateTime): (s: string)
    requires Valid(dt)
    ensures |s| == 19
  {
    Padded(dt.year, 4) + "-" + Padded(dt.month, 2) + "-" + Padded(dt.day, 2) + " "
    + Padded(dt.hour, 2) + ":" + Padded(dt.minute, 2) + ":" + Padded(dt.second, 2)
  }

  predicate Shaped(s: string) {
    && |s| == 19
    && s[4] == '-' && s[7] == '-' && s[10] == ' ' && s[13] == ':' && s[16] == ':'
    && AllDigits(s[0..4]) && AllDigits(s[5..7]) && AllDigits(s[8..10])
    && AllDigits(s[11..13]) && AllDigits(s[14..16]) && AllDigits(s[17..19])
  }

  /** `datetime.strptime(s, '%Y-%m-%d %H:%M:%S')` restricted to zero-padded two-digit fields:
      every string it accepts is the `Format` of the date-time it returns, so distinct accepted
      strings denote distinct instants. */
  function Canonical(s: string): (r: Option<DateTime>)
    ensures r.Some? ==> Valid(r.value) && Format(r.value) == s
  {
    if !Shaped(s) then None
    else
      var dt := DateTime(ValueOf(s[0..4]), ValueOf(s[5..7]), ValueOf(s[8..10]),
                         ValueOf(s[11..13]), ValueOf(s[14..16]), ValueOf(s[17..19]));
      if Valid(dt) then
        FormatOfShaped(s, dt);
        Some(dt)
      else None
  }

  lemma FormatOfShaped(s: string, dt: DateTime)
    requires Shaped(s) && Valid(dt)
    requires dt == DateTime(ValueOf(s[0..4]), ValueOf(s[5..7]), ValueOf(s[8..10]),
                            ValueOf(s[11..13]), ValueOf(s[14..16]), ValueOf(s[17..19]))
    ensures Format(dt) == s
  {
    PaddedValueOf(s[0..4]);
    PaddedValueOf(s[5..7]);
    PaddedValueOf(s[8..10]);
    PaddedValueOf(s[11..13]);
    PaddedValueOf(s[14..16]);
    PaddedValueOf(s[17..19]);
    Pieces(s);
  }

  /** A 19-character string is its six digit groups glued back with its five separators. */
  lemma Pieces(s: string)
    requires |s| == 19
    ensures s == s[0..4] + [s[4]] + s[5..7] + [s[7]] + s[8..10] + [s[10]]
                 + s[11..13] + [s[13]] + s[14..16] + [s[16]] + s[17..19]
  {
  }

  /** Round trip: every valid date-time is accepted back from its text form. */
  lemma FormatThenParse(dt: DateTime)
    requires Valid(dt)
    ensures Canonical(Format(dt)) == Some(dt)
  {
    var s := Format(dt);
    assert s[0..4] == Padded(dt.year, 4);
    assert s[5..7] == Padded(dt.month, 2);
    assert s[8..10] == Padded(dt.day, 2);
    assert s[11..13] == Padded(dt.hour, 2);
    assert s[14..16] == Padded(dt.minute, 2);
    assert s[17..19] == Padded(dt.second, 2);
    ValueOfPadded(dt.year, 4);
    ValueOfPadded(dt.month, 2);
    ValueOfPadded(dt.day, 2);
    ValueOfPadded(dt.hour, 2);
    ValueOfPadded(dt.minute, 2);
    ValueOfPadded(dt.second, 2);
  }

  /** Two accepted texts that denote the same instant are the same text. */
  lemma CanonicalInjective(s: string, t: string)
    requires Canonical(s).Some? && Canonical(s) == Canonical(t)
    ensures s == t
  {
  }
}
