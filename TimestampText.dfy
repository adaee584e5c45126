/**
 * The text form in which the booking screen writes and reads timestamps, the
 * pattern "yyyy/MM/dd & h:mm a": a year written with at least four digits and
 * read back from at most four, a two-digit month and day, an unpadded hour on
 * the 12-hour clock, a two-digit minute and "AM" or "PM". For example 2025-06-10 14:00 is "2025/06/10 & 2:00 PM".
 */
module TimestampText {
  import opened Options
  import opened Calendar

  predicate IsDigit(c: char) {
    '0' <= c <= '9'
  }

  predicate AllDigits(s: string) {
    forall i :: 0 <= i < |s| ==> IsDigit(s[i])
  }

  function DigitChar(n: nat): (c: char)
    requires n < 10
    ensures IsDigit(c)
  {
    ('0' as int + n) as char
  }

  function DigitValue(c: char): (n: nat)
    requires IsDigit(c)
    ensures n < 10
  {
    c as int - '0' as int
  }

  /** The shortest decimal numeral of n. */
  function Decimal(n: nat): (s: string)
    ensures 1 <= |s| && AllDigits(s)
  {
    if n < 10 then [DigitChar(n)] else Decimal(n / 10) + [DigitChar(n % 10)]
  }

  function Zeros(k: nat): (s: string)
    ensures |s| == k && AllDigits(s)
  {
    seq(k, _ => '0')
  }

  /** The numeral of n left-padded with zeros to at least `width` digits. */
  function Padded(n: nat, width: nat): (s: string)
    ensures AllDigits(s)
  {
    var d := Decimal(n);
    if |d| < width then Zeros(width - |d|) + d else d
  }

  /** The number a numeral denotes. */
  function ValueOf(s: string): nat
    requires AllDigits(s)
  {
    if s == [] then 0 else ValueOf(s[..|s| - 1]) * 10 + DigitValue(s[|s| - 1])
  }

  function Pow10(k: nat): (p: nat)
    ensures p >= 1
  {
    if k == 0 then 1 else 10 * Pow10(k - 1)
  }

  /** The hour on the 12-hour clock ("h"): 12 for midnight and noon. */
  function Hour12(hour: nat): (h: nat)
    ensures 1 <= h <= 12
  {
    if hour % 12 == 0 then 12 else hour % 12
  }

  /** The day period ("a"). */
  function Period(hour: nat): string {
    if hour < 12 then "AM" else "PM"
  }

  /** The 24-hour hour that an hour on the 12-hour clock and a day period denote. */
  function Hour24(h: nat, pm: bool): nat {
    if pm && h < 12 then h + 12
    else if !pm && h == 12 then 0
    else h
  }

  /** "h:mm a": the time of day, also the text the confirmation screen shows. */
  function ClockText(hour: nat, minute: nat): string {
    Decimal(Hour12(hour)) + (":" + (Padded(minute, 2) + (" " + Period(hour))))
  }

  /** "yyyy/MM/dd & h:mm a". */
  function FormatTimestamp(t: Timestamp): string {
    Padded(t.date.year, 4) + ("/" + (Padded(t.date.month, 2) + ("/" + (Padded(t.date.day, 2)
      + (" & " + ClockText(t.hour, t.minute))))))
  }

  // ----- Parsing -----

  /** How many leading characters of s (at most max) are digits. */
  function DigitRun(s: string, max: nat): (k: nat)
    ensures k <= max && k <= |s|
    ensures AllDigits(s[..k])
    ensures k < max && k < |s| ==> !IsDigit(s[k])
  {
    if max == 0 || s == [] || !IsDigit(s[0]) then 0
    else
      var k := 1 + DigitRun(s[1..], max - 1);
      assert s[..k] == [s[0]] + s[1..][..k - 1];
      k
  }

  datatype Field = Field(value: nat, rest: string)

  /** A number of one to max digits, read greedily. */
  function Number(s: string, max: nat): Option<Field> {
    var k := DigitRun(s, max);
    if k == 0 then None else Some(Field(ValueOf(s[..k]), s[k..]))
  }

  function Literal(s: string, lit: string): Option<string> {
    if |lit| <= |s| && s[..|lit|] == lit then Some(s[|lit|..]) else None
  }

  datatype PeriodField = PeriodField(pm: bool, rest: string)

  /** "AM" or "PM", in either case. */
  function DayPeriod(s: string): Option<PeriodField> {
    if |s| >= 2 && s[0] in "aApP" && s[1] in "mM" then Some(PeriodField(s[0] in "pP", s[2..]))
    else None
  }

  datatype DateField = DateField(year: nat, month: nat, day: nat, rest: string)

  /** "yyyy/MM/dd" at the start of s. */
  function ParseDateText(s: string): Option<DateField> {
    var y :- Number(s, 4);
    var s1 :- Literal(y.rest, "/");
    var mo :- Number(s1, 2);
    var s2 :- Literal(mo.rest, "/");
    var d :- Number(s2, 2);
    Some(DateField(y.value, mo.value, d.value, d.rest))
  }

  datatype ClockField = ClockField(hour12: nat, minute: nat, pm: bool)

  /** "h:mm a", and nothing after it. */
  function ParseClockText(s: string): Option<ClockField> {
    var h :- Number(s, 2);
    var s1 :- Literal(h.rest, ":");
    var mi :- Number(s1, 2);
    var s2 :- Literal(mi.rest, " ");
    var p :- DayPeriod(s2);
    if p.rest == [] then Some(ClockField(h.value, mi.value, p.pm)) else None
  }

  /**
   * Reads "yyyy/MM/dd & h:mm a" back. Text not of that form, or naming a date or
   * a time that does not exist (month 13, 31 April, hour 0 on the 12-hour clock,
   * minute 60), gives None.
   */
  function ParseTimestamp(s: string): (r: Option<Timestamp>)
    ensures r.Some? ==> ValidTimestamp(r.value)
  {
    var d :- ParseDateText(s);
    var s1 :- Literal(d.rest, " & ");
    var c :- ParseClockText(s1);
    if d.year >= 1 && 1 <= d.month <= 12 && 1 <= d.day <= DaysInMonth(d.year, d.month)
       && 1 <= c.hour12 <= 12 && c.minute < 60
    then Some(Timestamp(Date(d.year, d.month, d.day), Hour24(c.hour12, c.pm), c.minute))
    else None
  }

  // ----- Round trip -----

  lemma {:induction false} ValueOfDecimal(n: nat)
    ensures ValueOf(Decimal(n)) == n
  {
    if n >= 10 {
      var s := Decimal(n);
      assert s[..|s| - 1] == Decimal(n / 10);
      ValueOfDecimal(n / 10);
    }
  }

  lemma {:induction false} DecimalLength(n: nat, k: nat)
    requires 1 <= k && n < Pow10(k)
    ensures |Decimal(n)| <= k
  {
    if n >= 10 {
      DecimalLength(n / 10, k - 1);
    }
  }

  lemma {:induction false} ValueOfLeadingZeros(k: nat, s: string)
    requires AllDigits(s)
    ensures ValueOf(Zeros(k) + s) == ValueOf(s)
  {
    if s == [] {
      assert Zeros(k) + s == Zeros(k);
      ZerosValue(k);
    } else {
      var t := Zeros(k) + s;
      assert t[..|t| - 1] == Zeros(k) + s[..|s| - 1];
      ValueOfLeadingZeros(k, s[..|s| - 1]);
    }
  }

  lemma {:induction false} ZerosValue(k: nat)
    ensures ValueOf(Zeros(k)) == 0
  {
    if k > 0 {
      assert Zeros(k)[..k - 1] == Zeros(k - 1);
      ZerosValue(k - 1);
    }
  }

  lemma ValueOfPadded(n: nat, width: nat)
    ensures ValueOf(Padded(n, width)) == n
  {
    ValueOfDecimal(n);
    var d := Decimal(n);
    if |d| < width {
      ValueOfLeadingZeros(width - |d|, d);
    }
  }

  lemma {:induction false} DigitRunStops(s: string, rest: string, max: nat)
    requires AllDigits(s) && |s| <= max
    requires rest == [] || !IsDigit(rest[0])
    ensures DigitRun(s + rest, max) == |s|
  {
    if s != [] {
      assert (s + rest)[1..] == s[1..] + rest;
      DigitRunStops(s[1..], rest, max - 1);
    } else {
      assert s + rest == rest;
    }
  }

  /** A numeral that fits the field width and is followed by a non-digit reads back whole. */
  lemma NumberOfNumeral(s: string, rest: string, max: nat)
    requires AllDigits(s) && 1 <= |s| <= max
    requires rest == [] || !IsDigit(rest[0])
    ensures Number(s + rest, max) == Some(Field(ValueOf(s), rest))
  {
    DigitRunStops(s, rest, max);
    assert (s + rest)[..|s|] == s;
    assert (s + rest)[|s|..] == rest;
  }

  lemma LiteralPrefix(lit: string, rest: string)
    ensures Literal(lit + rest, lit) == Some(rest)
  {
    assert (lit + rest)[..|lit|] == lit;
    assert (lit + rest)[|lit|..] == rest;
  }

  lemma PaddedLength(n: nat, width: nat, max: nat)
    requires 1 <= width <= max && n < Pow10(max)
    ensures 1 <= |Padded(n, width)| <= max
  {
    DecimalLength(n, max);
  }

  lemma HourRoundTrip(hour: nat)
    requires hour < 24
    ensures Hour24(Hour12(hour), hour >= 12) == hour
  {
  }

  /** A field of at most max digits, padded to width, reads back as its value. */
  lemma NumberOfPadded(n: nat, width: nat, max: nat, rest: string)
    requires 1 <= width <= max && n < Pow10(max)
    requires rest == [] || !IsDigit(rest[0])
    ensures Number(Padded(n, width) + rest, max) == Some(Field(n, rest))
  {
    PaddedLength(n, width, max);
    NumberOfNumeral(Padded(n, width), rest, max);
    ValueOfPadded(n, width);
  }

  lemma DateTextRoundTrip(y: nat, m: nat, d: nat, rest: string)
    requires y < 10000 && m < 100 && d < 100
    requires rest == [] || !IsDigit(rest[0])
    ensures ParseDateText(Padded(y, 4) + ("/" + (Padded(m, 2) + ("/" + (Padded(d, 2) + rest)))))
         == Some(DateField(y, m, d, rest))
  {
    var r2 := Padded(d, 2) + rest;
    var r1 := Padded(m, 2) + ("/" + r2);
    assert Pow10(2) == 100 && Pow10(4) == 10000;
    NumberOfPadded(y, 4, 4, "/" + r1);
    LiteralPrefix("/", r1);
    NumberOfPadded(m, 2, 2, "/" + r2);
    LiteralPrefix("/", r2);
    NumberOfPadded(d, 2, 2, rest);
  }

  /** "h:mm a" reads back as the hour on the 12-hour clock, the minute and the day period. */
  lemma ClockTextRoundTrip(hour: nat, minute: nat)
    requires minute < 60
    ensures ParseClockText(ClockText(hour, minute)) == Some(ClockField(Hour12(hour), minute, hour >= 12))
  {
    var r2 := Period(hour);
    var r1 := Padded(minute, 2) + (" " + r2);
    var h12 := Hour12(hour);
    assert ClockText(hour, minute) == Padded(h12, 1) + (":" + r1);
    assert Pow10(2) == 100;
    NumberOfPadded(h12, 1, 2, ":" + r1);
    LiteralPrefix(":", r1);
    NumberOfPadded(minute, 2, 2, " " + r2);
    LiteralPrefix(" ", r2);
    PeriodReadsBack(hour);
  }

  lemma PeriodReadsBack(hour: nat)
    ensures DayPeriod(Period(hour)) == Some(PeriodField(hour >= 12, []))
  {
    var p := Period(hour);
    assert p[0] == (if hour < 12 then 'A' else 'P') && p[1] == 'M';
    assert p[0] in "aApP" && p[1] in "mM";
    assert (p[0] in "pP") == (hour >= 12);
    assert p[2..] == [];
  }

  /**
   * Formatting a timestamp and parsing the text back gives the same date, hour
   * and minute, for every hour of the day (the 12-hour conversion included)
   * and every year that the four-digit year field can hold.
   */
  lemma RoundTrip(t: Timestamp)
    requires ValidTimestamp(t) && t.date.year <= 9999
    ensures ParseTimestamp(FormatTimestamp(t)) == Some(t)
  {
    var clock := ClockText(t.hour, t.minute);
    DateTextRoundTrip(t.date.year, t.date.month, t.date.day, " & " + clock);
    LiteralPrefix(" & ", clock);
    ClockTextRoundTrip(t.hour, t.minute);
    HourRoundTrip(t.hour);
  }

  /** An example: 14:00 on 2025-06-10 is written "2025/06/10 & 2:00 PM". */
  lemma ExampleText()
    ensures FormatTimestamp(Timestamp(Date(2025, 6, 10), 14, 0)) == "2025/06/10 & 2:00 PM"
  {
  }
}
