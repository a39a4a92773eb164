/**
 * `dateandtime_now` (utils.py): the `YYYYMMDD_HHMM` stamp used to name result
 * directories and error files. The clock is not read here: the calendar fields
 * of the current time are a parameter.
 */
module Timestamp {
  import opened Results
  import opened Decimal

  /** The fields of a `datetime.datetime` that the stamp uses. */
  datatype DateTime = DateTime(year: nat, month: nat, day: nat, hour: nat, minute: nat)

  predicate IsLeapYear(year: nat) {
    year % 4 == 0 && (year % 100 != 0 || year % 400 == 0)
  }

  function DaysInMonth(year: nat, month: nat): nat
    requires 1 <= month <= 12
  {
    if month == 2 then (if IsLeapYear(year) then 29 else 28)
    else if month in {4, 6, 9, 11} then 30
    else 31
  }

  /** The ranges `datetime` guarantees for its fields (years 1 to 9999). */
  predicate Valid(t: DateTime) {
    && 1 <= t.year <= 9999
    && 1 <= t.month <= 12
    && 1 <= t.day <= DaysInMonth(t.year, t.month)
    && t.hour < 24
    && t.minute < 60
  }

  /** Prefixes a `'0'` to a field whose decimal form is shorter than two characters. */
  function Pad2(s: string): (r: string)
    ensures |r| == if |s| < 2 then |s| + 1 else |s|
    ensures |r| == |s| ==> r == s
    ensures |r| > |s| ==> r[0] == '0' && r[1..] == s
  {
    if |s| < 2 then "0" + s else s
  }

  /**
   * `dateandtime_now()` evaluated at time `t`. For a valid time it starts
   * with the year, and the `'_'` is followed by exactly four characters.
   */
  function Format(t: DateTime): (r: string)
    ensures Valid(t) ==> var y := |NatToString(t.year)|;
      && |r| == y + 9 && r[..y] == NatToString(t.year) && r[y + 4] == '_'
  {
    var date := NatToString(t.year) + Pad2(NatToString(t.month)) + Pad2(NatToString(t.day));
    date + "_" + Pad2(NatToString(t.hour)) + Pad2(NatToString(t.minute))
  }

  /** The two decimal digits of `n < 100`, tens first. */
  function TwoDigits(n: nat): (s: string)
    requires n < 100
  {
    [DigitChar(n / 10), DigitChar(n % 10)]
  }

  /** A padded field is exactly two characters: the digits of the field, with a leading '0' below ten. */
  lemma PaddedField(n: nat)
    requires n < 100
    ensures Pad2(NatToString(n)) == TwoDigits(n)
    ensures |Pad2(NatToString(n))| == 2
    ensures n < 10 <==> Pad2(NatToString(n))[0] == '0'
  {
    BelowHundred(n);
  }

  /** The stamp is the year, then month, day, `'_'`, hour and minute as two digits each. */
  lemma FormatFields(t: DateTime)
    requires Valid(t)
    ensures Format(t) == NatToString(t.year) + TwoDigits(t.month) + TwoDigits(t.day) + "_"
                         + TwoDigits(t.hour) + TwoDigits(t.minute)
    ensures |Format(t)| == |NatToString(t.year)| + 9
    ensures Format(t)[|NatToString(t.year)| + 4] == '_'
  {
    PaddedField(t.month);
    PaddedField(t.day);
    PaddedField(t.hour);
    PaddedField(t.minute);
  }

  /** With a four-digit year the stamp has 13 characters and its `'_'` at index 8. */
  lemma FourDigitYearLayout(t: DateTime)
    requires Valid(t) && t.year >= 1000
    ensures |Format(t)| == 13 && Format(t)[8] == '_'
  {
    FormatFields(t);
    FourDigits(t.year);
  }

  /** Reads a 13-character stamp back into its fields. */
  function Parse(s: string): Option<DateTime> {
    if |s| == 13 && s[8] == '_' && AllDigits(s[..8]) && AllDigits(s[9..]) then
      var date, time := s[..8], s[9..];
      assert AllDigits(date[..4]) && AllDigits(date[4..6]) && AllDigits(date[6..]);
      assert AllDigits(time[..2]) && AllDigits(time[2..]);
      Some(DateTime(DigitsValue(date[..4]), DigitsValue(date[4..6]), DigitsValue(date[6..]),
                    DigitsValue(time[..2]), DigitsValue(time[2..])))
    else
      None
  }

  /** Two digits read back as the number they spell. */
  lemma TwoDigitsRoundTrip(n: nat)
    requires n < 100
    ensures AllDigits(TwoDigits(n)) && DigitsValue(TwoDigits(n)) == n
  {
    TwoDigitsValue(n / 10, n % 10);
  }

  /** Where the five fields sit in a stamp with a four-character year. */
  lemma StampSlices(y: string, mo: string, d: string, h: string, mi: string)
    requires |y| == 4 && |mo| == 2 && |d| == 2 && |h| == 2 && |mi| == 2
    ensures var s := y + mo + d + "_" + h + mi;
      && |s| == 13 && s[8] == '_'
      && s[..8] == y + mo + d && s[9..] == h + mi
      && s[..8][..4] == y && s[..8][4..6] == mo && s[..8][6..] == d
      && s[9..][..2] == h && s[9..][2..] == mi
  {
    var s := y + mo + d + "_" + h + mi;
    assert s[..8] == y + mo + d;
    assert s[9..] == h + mi;
  }

  /** Digit strings stay digit strings when joined. */
  lemma AllDigitsJoin(a: string, b: string)
    requires AllDigits(a) && AllDigits(b)
    ensures AllDigits(a + b)
  {
    forall i | 0 <= i < |a + b|
      ensures IsDigit((a + b)[i])
    {
      if i >= |a| {
        assert (a + b)[i] == b[i - |a|];
      }
    }
  }

  /** A stamp assembled from a four-digit year and four two-digit fields parses back into those fields. */
  lemma ParseFields(y: string, mo: string, d: string, h: string, mi: string)
    requires |y| == 4 && |mo| == 2 && |d| == 2 && |h| == 2 && |mi| == 2
    requires AllDigits(y) && AllDigits(mo) && AllDigits(d) && AllDigits(h) && AllDigits(mi)
    ensures Parse(y + mo + d + "_" + h + mi)
            == Some(DateTime(DigitsValue(y), DigitsValue(mo), DigitsValue(d), DigitsValue(h), DigitsValue(mi)))
  {
    StampSlices(y, mo, d, h, mi);
    AllDigitsJoin(y, mo);
    AllDigitsJoin(y + mo, d);
    AllDigitsJoin(h, mi);
  }

  /** For years 1000 to 9999, the stamp determines the time it was made from. */
  lemma FormatParseRoundTrip(t: DateTime)
    requires Valid(t) && t.year >= 1000
    ensures Parse(Format(t)) == Some(t)
  {
    var y := NatToString(t.year);
    var mo, d, h, mi := TwoDigits(t.month), TwoDigits(t.day), TwoDigits(t.hour), TwoDigits(t.minute);
    FormatFields(t);
    FourDigits(t.year);
    NatToStringRoundTrip(t.year);
    TwoDigitsRoundTrip(t.month);
    TwoDigitsRoundTrip(t.day);
    TwoDigitsRoundTrip(t.hour);
    TwoDigitsRoundTrip(t.minute);
    ParseFields(y, mo, d, h, mi);
  }

  /** Two different times with four-digit years never share a stamp. */
  lemma FormatInjective(t: DateTime, u: DateTime)
    requires Valid(t) && t.year >= 1000
    requires Valid(u) && u.year >= 1000
    requires Format(t) == Format(u)
    ensures t == u
  {
    FormatParseRoundTrip(t);
    FormatParseRoundTrip(u);
  }
}
