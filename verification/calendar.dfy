/** Dates and the two strftime formats the resume uses: '%b %Y' for the
    month and year of an experience or an education, and
    '%B %d, %Y at %I:%M %p' for the generation time in the footer (C locale). */
module Calendar {
  import opened Wrappers

  /** datetime.MINYEAR .. datetime.MAXYEAR */
  type Year = y: int | 1 <= y <= 9999 witness 1
  type Month = m: int | 1 <= m <= 12 witness 1
  type Day = d: int | 1 <= d <= 31 witness 1
  type Hour = h: int | 0 <= h < 24
  type Minute = m: int | 0 <= m < 60

  datatype Date = Date(year: Year, month: Month, day: Day)

  datatype DateTime = DateTime(date: Date, hour: Hour, minute: Minute)

  /** %b in the C locale. */
  const MonthAbbreviations: seq<string> :=
    ["Jan", "Feb", "Mar", "Apr", "May", "Jun", "Jul", "Aug", "Sep", "Oct", "Nov", "Dec"]

  /** %B in the C locale. */
  const MonthNames: seq<string> :=
    ["January", "February", "March", "April", "May", "June",
     "July", "August", "September", "October", "November", "December"]

  predicate IsDigit(c: char) {
    '0' <= c <= '9'
  }

  /** A non-empty run of decimal digits. */
  predicate IsDigits(s: string) {
    s != "" && forall k :: 0 <= k < |s| ==> IsDigit(s[k])
  }

  function DigitChar(d: nat): (c: char)
    requires d < 10
    ensures IsDigit(c)
  {
    ('0' as int + d) as char
  }

  /** Value of a string of digits, most significant first. */
  function DigitsValue(s: string): nat
  {
    if s == "" then 0
    else DigitsValue(s[..|s| - 1]) * 10 + (if IsDigit(s[|s| - 1]) then s[|s| - 1] as int - '0' as int else 0)
  }

  /** The decimal form of n without leading zeros, as str(n) and %Y write it. */
  function Decimal(n: nat): (s: string)
    ensures IsDigits(s)
    ensures n > 0 ==> s[0] != '0'
    ensures DigitsValue(s) == n
  {
    if n < 10 then [DigitChar(n)]
    else
      var s := Decimal(n / 10) + [DigitChar(n % 10)];
      assert s[..|s| - 1] == Decimal(n / 10);
      s
  }

  /** Two digits with a leading zero: %d, %I and %M. */
  function Pad2(n: nat): (s: string)
    requires n < 100
    ensures |s| == 2 && IsDigits(s)
    ensures DigitsValue(s) == n
  {
    if n < 10 then
      var s := ['0', DigitChar(n)];
      assert s[..1] == ['0'] && DigitsValue(s[..1]) == 0;
      s
    else
      assert Decimal(n) == Decimal(n / 10) + [DigitChar(n % 10)];
      assert |Decimal(n / 10)| == 1;
      Decimal(n)
  }

  /** '%b %Y': "Jan 2020". */
  function MonthYear(d: Date): (s: string)
    ensures |s| >= 5
    ensures s[..3] == MonthAbbreviations[d.month - 1] && s[3] == ' ' && s[4..] == Decimal(d.year)
    ensures '-' !in s
  {
    var a := MonthAbbreviations[d.month - 1];
    AbbreviationShape(d.month - 1);
    var s := a + " " + Decimal(d.year);
    assert s[4..] == Decimal(d.year);
    assert forall k :: 0 <= k < |s| ==> s[k] == ' ' || IsLetter(s[k]) || IsDigit(s[k]);
    s
  }

  predicate IsLetter(c: char) {
    'A' <= c <= 'Z' || 'a' <= c <= 'z'
  }

  /** Every abbreviation is three letters. */
  lemma AbbreviationShape(i: nat)
    requires i < |MonthAbbreviations|
    ensures |MonthAbbreviations[i]| == 3
    ensures forall k :: 0 <= k < 3 ==> IsLetter(MonthAbbreviations[i][k])
  {
  }

  /** The month an abbreviation stands for. */
  function MonthOfAbbreviation(a: string): Option<Month>
  {
    if a == "Jan" then Some(1) else if a == "Feb" then Some(2) else if a == "Mar" then Some(3)
    else if a == "Apr" then Some(4) else if a == "May" then Some(5) else if a == "Jun" then Some(6)
    else if a == "Jul" then Some(7) else if a == "Aug" then Some(8) else if a == "Sep" then Some(9)
    else if a == "Oct" then Some(10) else if a == "Nov" then Some(11) else if a == "Dec" then Some(12)
    else None
  }

  /** Reads back a '%b %Y' text as (month, year). */
  function ParseMonthYear(s: string): Option<(Month, Year)>
  {
    if |s| < 5 || s[3] != ' ' || !IsDigits(s[4..]) then None
    else
      var month, year := MonthOfAbbreviation(s[..3]), DigitsValue(s[4..]);
      if month.None? || !(1 <= year <= 9999) then None else Some((month.value, year))
  }

  /** Every abbreviation reads back as its own month. */
  lemma AbbreviationRoundTrip(m: Month)
    ensures MonthOfAbbreviation(MonthAbbreviations[m - 1]) == Some(m)
  {
  }

  /** '%b %Y' loses neither the month nor the year. */
  lemma MonthYearRoundTrip(d: Date)
    ensures ParseMonthYear(MonthYear(d)) == Some((d.month, d.year))
  {
    AbbreviationRoundTrip(d.month);
  }

  /** Two dates print the same '%b %Y' text exactly when they share month and year. */
  lemma MonthYearInjective(a: Date, b: Date)
    ensures MonthYear(a) == MonthYear(b) <==> (a.month == b.month && a.year == b.year)
  {
    if MonthYear(a) == MonthYear(b) {
      MonthYearRoundTrip(a);
      MonthYearRoundTrip(b);
    }
  }

  /** %I: the hour on a 12-hour clock, 12 standing for 0. */
  function Hour12(h: Hour): (r: int)
    ensures 1 <= r <= 12
    ensures r % 12 == h % 12
  {
    if h % 12 == 0 then 12 else h % 12
  }

  /** %p in the C locale. */
  function Meridiem(h: Hour): (p: string)
    ensures p == "AM" <==> h < 12
    ensures p == "AM" || p == "PM"
  {
    if h < 12 then "AM" else "PM"
  }

  /** The 12-hour clock loses no information: %I and %p fix the hour. */
  lemma ClockRoundTrip(a: Hour, b: Hour)
    ensures (Hour12(a) == Hour12(b) && Meridiem(a) == Meridiem(b)) <==> a == b
  {
  }

  /** '%B %d, %Y at %I:%M %p': "January 05, 2024 at 03:07 PM". */
  function FormatTimestamp(t: DateTime): (s: string)
    ensures |s| >= 8 + |MonthNames[t.date.month - 1]|
    ensures s[..|MonthNames[t.date.month - 1]|] == MonthNames[t.date.month - 1]
    ensures s[|s| - 8..] == Pad2(Hour12(t.hour)) + ":" + Pad2(t.minute) + " " + Meridiem(t.hour)
    ensures s[|MonthNames[t.date.month - 1]|..|s| - 8] ==
      " " + Pad2(t.date.day) + ", " + Decimal(t.date.year) + " at "
  {
    var name := MonthNames[t.date.month - 1];
    var middle := " " + Pad2(t.date.day) + ", " + Decimal(t.date.year) + " at ";
    var clock := Pad2(Hour12(t.hour)) + ":" + Pad2(t.minute) + " " + Meridiem(t.hour);
    assert |clock| == 8;
    var s := name + (middle + clock);
    assert s[..|name|] == name;
    assert s == (name + middle) + clock;
    assert s[|s| - 8..] == clock;
    assert s[|name|..|s| - 8] == middle;
    s
  }
}
