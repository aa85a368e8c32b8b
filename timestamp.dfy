/**
  The local date-time stamped on each lead notification, rendered as
  `datetime.strftime('%d.%m.%Y %H:%M:%S')` renders it: two-digit day, month,
  hour, minute and second, a four-digit year, all zero-padded. The clock itself
  is not modelled; the date-time is an input.
*/
module Timestamp {
  import opened Wrappers
  import opened Numerals

  datatype DateTime = DateTime(year: int, month: int, day: int, hour: int, minute: int, second: int)

  predicate IsLeapYear(y: int) {
    y % 4 == 0 && (y % 100 != 0 || y % 400 == 0)
  }

  function DaysInMonth(y: int, m: int): (n: int)
    requires 1 <= m <= 12
    ensures 28 <= n <= 31
    ensures n == 29 <==> m == 2 && IsLeapYear(y)
  {
    if m == 2 then (if IsLeapYear(y) then 29 else 28)
    else if m == 4 || m == 6 || m == 9 || m == 11 then 30
    else 31
  }

  /** The values a Python `datetime` can hold (years 1 to 9999, no leap second). */
  predicate ValidDateTime(t: DateTime) {
    1 <= t.year <= 9999 && 1 <= t.month <= 12 && 1 <= t.day <= DaysInMonth(t.year, t.month) &&
    0 <= t.hour < 24 && 0 <= t.minute < 60 && 0 <= t.second < 60
  }

  /** `DD.MM.YYYY HH:MM:SS`: every field a zero-padded digit run holding its value. */
  function Format(t: DateTime): (s: string)
    requires ValidDateTime(t)
    ensures |s| == 19
    ensures s[2] == '.' && s[5] == '.' && s[10] == ' ' && s[13] == ':' && s[16] == ':'
    ensures AllDigits(s[0..2]) && DigitsValue(s[0..2]) == t.day
    ensures AllDigits(s[3..5]) && DigitsValue(s[3..5]) == t.month
    ensures AllDigits(s[6..10]) && DigitsValue(s[6..10]) == t.year
    ensures AllDigits(s[11..13]) && DigitsValue(s[11..13]) == t.hour
    ensures AllDigits(s[14..16]) && DigitsValue(s[14..16]) == t.minute
    ensures AllDigits(s[17..19]) && DigitsValue(s[17..19]) == t.second
  {
    var s := Fixed(t.day, 2) + "." + Fixed(t.month, 2) + "." + Fixed(t.year, 4) + " " +
      Fixed(t.hour, 2) + ":" + Fixed(t.minute, 2) + ":" + Fixed(t.second, 2);
    assert s[0..2] == Fixed(t.day, 2);
    assert s[3..5] == Fixed(t.month, 2);
    assert s[6..10] == Fixed(t.year, 4);
    assert s[11..13] == Fixed(t.hour, 2);
    assert s[14..16] == Fixed(t.minute, 2);
    assert s[17..19] == Fixed(t.second, 2);
    s
  }

  /** Reads a `DD.MM.YYYY HH:MM:SS` stamp back; `None` for any other string or an impossible date. */
  function Parse(s: string): (r: Option<DateTime>)
    ensures r.Some? ==> ValidDateTime(r.value)
  {
    if |s| == 19 && s[2] == '.' && s[5] == '.' && s[10] == ' ' && s[13] == ':' && s[16] == ':' &&
       AllDigits(s[0..2]) && AllDigits(s[3..5]) && AllDigits(s[6..10]) &&
       AllDigits(s[11..13]) && AllDigits(s[14..16]) && AllDigits(s[17..19])
    then
      var t := DateTime(DigitsValue(s[6..10]), DigitsValue(s[3..5]), DigitsValue(s[0..2]),
                        DigitsValue(s[11..13]), DigitsValue(s[14..16]), DigitsValue(s[17..19]));
      if ValidDateTime(t) then Some(t) else None
    else None
  }

  /** Every stamp the server writes reads back as the date-time it was made from. */
  lemma ParseFormat(t: DateTime)
    requires ValidDateTime(t)
    ensures Parse(Format(t)) == Some(t)
  {
  }

  /** Every string that reads as a stamp is exactly the stamp of what it reads as. */
  lemma FormatParse(s: string)
    requires Parse(s).Some?
    ensures Format(Parse(s).value) == s
  {
    var t := Parse(s).value;
    var f := Format(t);
    FixedOfValue(s[0..2]);
    FixedOfValue(s[3..5]);
    FixedOfValue(s[6..10]);
    FixedOfValue(s[11..13]);
    FixedOfValue(s[14..16]);
    FixedOfValue(s[17..19]);
    assert f[0..2] == s[0..2] by { FixedOfValue(f[0..2]); }
    assert f[3..5] == s[3..5] by { FixedOfValue(f[3..5]); }
    assert f[6..10] == s[6..10] by { FixedOfValue(f[6..10]); }
    assert f[11..13] == s[11..13] by { FixedOfValue(f[11..13]); }
    assert f[14..16] == s[14..16] by { FixedOfValue(f[14..16]); }
    assert f[17..19] == s[17..19] by { FixedOfValue(f[17..19]); }
    forall k | 0 <= k < 19 ensures f[k] == s[k] {
      if k < 2 { assert f[k] == f[0..2][k]; assert s[k] == s[0..2][k]; }
      else if 2 < k < 5 { assert f[k] == f[3..5][k - 3]; assert s[k] == s[3..5][k - 3]; }
      else if 5 < k < 10 { assert f[k] == f[6..10][k - 6]; assert s[k] == s[6..10][k - 6]; }
      else if 10 < k < 13 { assert f[k] == f[11..13][k - 11]; assert s[k] == s[11..13][k - 11]; }
      else if 13 < k < 16 { assert f[k] == f[14..16][k - 14]; assert s[k] == s[14..16][k - 14]; }
      else if 16 < k { assert f[k] == f[17..19][k - 17]; assert s[k] == s[17..19][k - 17]; }
    }
  }
}
