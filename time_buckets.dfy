/**
 * Local-time formatting, day boundaries and the 24 empty hourly buckets
 * (src/health/utils/timeBuckets.ts).
 *
 * A JavaScript Date is represented by the components its local getters
 * report; reading the clock (`new Date()`) is replaced by a parameter.
 */
module TimeBuckets {
  import opened Wrappers
  import opened Models

  /**
   * What a Date's local getters return: getFullYear, getMonth (0 = January),
   * getDate, getHours, getMinutes, getSeconds, getMilliseconds and
   * getTimezoneOffset (minutes, UTC minus local time).
   */
  datatype DateParts = DateParts(
    fullYear: int,
    month: nat,
    date: nat,
    hours: nat,
    minutes: nat,
    seconds: nat,
    milliseconds: nat,
    timezoneOffset: int)

  const HOURS_PER_DAY: nat := 24

  /** Components within the ranges a valid Date reports, with a four-digit year. */
  predicate WellFormed(d: DateParts) {
    && 1000 <= d.fullYear <= 9999
    && d.month < 12
    && 1 <= d.date <= 31
    && d.hours < 24
    && d.minutes < 60
    && d.seconds < 60
    && d.milliseconds < 1000
    && -6000 < d.timezoneOffset < 6000
  }

  // ---------------------------------------------------------------------
  // Decimal text

  predicate IsDigit(c: char) {
    '0' <= c <= '9'
  }

  predicate AllDigits(s: string) {
    forall i | 0 <= i < |s| :: IsDigit(s[i])
  }

  function DigitChar(d: nat): (c: char)
    requires d < 10
    ensures IsDigit(c)
  {
    ('0' as int + d) as char
  }

  /** `String(n)` for a non-negative integer. */
  function NatToString(n: nat): (s: string)
    ensures 1 <= |s| && AllDigits(s)
  {
    if n < 10 then [DigitChar(n)] else NatToString(n / 10) + [DigitChar(n % 10)]
  }

  /** `String(x)` for any integer: a leading '-' below zero. */
  function IntToString(x: int): string {
    if x < 0 then "-" + NatToString(-x) else NatToString(x)
  }

  /** The number a string of decimal digits denotes. */
  function DigitsValue(s: string): nat
    requires AllDigits(s)
  {
    if |s| == 0 then 0 else DigitsValue(s[..|s| - 1]) * 10 + (s[|s| - 1] as int - '0' as int)
  }

  /** The digit count of NatToString. */
  function NumDigits(n: nat): nat {
    if n < 10 then 1 else NumDigits(n / 10) + 1
  }

  lemma {:induction false} NatToStringInverse(n: nat)
    ensures |NatToString(n)| == NumDigits(n)
    ensures DigitsValue(NatToString(n)) == n
  {
    if n >= 10 {
      NatToStringInverse(n / 10);
      var s := NatToString(n);
      assert s[..|s| - 1] == NatToString(n / 10);
    }
  }

  lemma NumDigitsBounds(n: nat)
    ensures n < 10 ==> NumDigits(n) == 1
    ensures 10 <= n < 100 ==> NumDigits(n) == 2
    ensures 100 <= n < 1000 ==> NumDigits(n) == 3
    ensures 1000 <= n < 10000 ==> NumDigits(n) == 4
  {
  }

  /** The inner `pad` of toLocalISOString: a leading '0' below 10. */
  function Pad(n: nat): string {
    (if n < 10 then "0" else "") + NatToString(n)
  }

  /** `pad` renders every n in 0..99 as exactly two digits that denote n. */
  lemma PadTwoDigits(n: nat)
    requires n < 100
    ensures |Pad(n)| == 2 && AllDigits(Pad(n)) && DigitsValue(Pad(n)) == n
    ensures n < 10 ==> Pad(n)[0] == '0'
  {
    NatToStringInverse(n);
    NumDigitsBounds(n);
    if n < 10 {
      assert Pad(n) == ['0', DigitChar(n)];
      assert Pad(n)[..1] == "0";
    }
  }

  /** `n.toString().padStart(3, '0')`. */
  function PadStart3(n: nat): string {
    var s := NatToString(n);
    if |s| >= 3 then s else seq(3 - |s|, _ => '0') + s
  }

  /** A leading '0' does not change the value of a digit string. */
  lemma {:induction false} LeadingZero(t: string)
    requires AllDigits(t)
    ensures AllDigits("0" + t) && DigitsValue("0" + t) == DigitsValue(t)
  {
    if |t| > 0 {
      var u := "0" + t;
      assert u[..|u| - 1] == "0" + t[..|t| - 1];
      LeadingZero(t[..|t| - 1]);
    } else {
      assert ("0" + t)[..0] == [];
    }
  }

  /** Milliseconds below 1000 are always three digits. */
  lemma PadStart3Digits(n: nat)
    requires n < 1000
    ensures |PadStart3(n)| == 3 && AllDigits(PadStart3(n)) && DigitsValue(PadStart3(n)) == n
  {
    var s := NatToString(n);
    NatToStringInverse(n);
    NumDigitsBounds(n);
    if |s| == 1 {
      assert PadStart3(n) == "0" + ("0" + s);
      LeadingZero(s);
      LeadingZero("0" + s);
    } else if |s| == 2 {
      assert PadStart3(n) == "0" + s;
      LeadingZero(s);
    }
  }

  function Abs(x: int): nat {
    if x < 0 then -x else x
  }

  // ---------------------------------------------------------------------
  // toLocalISOString

  /** The '+' or '-' of the offset: '+' exactly when tzo = -timezoneOffset is not negative. */
  function OffsetSign(d: DateParts): string {
    if -d.timezoneOffset >= 0 then "+" else "-"
  }

  /** The concatenation toLocalISOString builds, from its rendered pieces. */
  function ISOText(year: string, month: string, date: string, hours: string, minutes: string,
                   seconds: string, millis: string, sign: string, offHours: string, offMinutes: string): string
  {
    year + "-" + month + "-" + date + "T" + hours + ":" + minutes + ":" + seconds
    + "." + millis + sign + offHours + ":" + offMinutes
  }

  /** toLocalISOString: local date and time with millisecond precision and a numeric UTC offset. */
  function ToLocalISOString(d: DateParts): string {
    var tzo := -d.timezoneOffset;
    ISOText(IntToString(d.fullYear), Pad(d.month + 1), Pad(d.date), Pad(d.hours), Pad(d.minutes),
            Pad(d.seconds), PadStart3(d.milliseconds), OffsetSign(d), Pad(Abs(tzo) / 60), Pad(Abs(tzo) % 60))
  }

  /** A slice of a piece that sits at offset k of s is the matching slice of s. */
  lemma SubSlice(s: string, k: nat, a: string, i: nat, j: nat)
    requires k + |a| <= |s| && s[k..k + |a|] == a && i <= j <= |a|
    ensures s[k + i..k + j] == a[i..j]
  {
    assert forall t | i <= t < j :: a[t] == s[k + t];
  }

  /** Four pieces joined: each one sits at the sum of the lengths before it. */
  lemma JoinLayout(a: string, b: string, c: string, d: string)
    ensures var s := a + b + c + d;
      && s[0..|a|] == a && s[|a|..|a| + |b|] == b
      && s[|a| + |b|..|a| + |b| + |c|] == c && s[|a| + |b| + |c|..|s|] == d
  {
  }

  /** "YYYY-MM-DD" from its pieces. */
  lemma DateLayout(y: string, mo: string, da: string)
    requires |y| == 4 && |mo| == 2 && |da| == 2
    ensures var t := y + "-" + mo + "-" + da;
      && |t| == 10 && t[0..4] == y && t[4] == '-' && t[5..7] == mo && t[7] == '-' && t[8..10] == da
  {
  }

  /** "THH:MM:SS" from its pieces. */
  lemma TimeLayout(h: string, mi: string, se: string)
    requires |h| == 2 && |mi| == 2 && |se| == 2
    ensures var t := "T" + h + ":" + mi + ":" + se;
      && |t| == 9 && t[0] == 'T' && t[1..3] == h && t[3] == ':' && t[4..6] == mi && t[6] == ':' && t[7..9] == se
  {
  }

  /** "±HH:MM" from its pieces. */
  lemma ZoneLayout(sg: string, oh: string, om: string)
    requires |sg| == 1 && |oh| == 2 && |om| == 2
    ensures var t := sg + oh + ":" + om;
      && |t| == 6 && t[0..1] == sg && t[1..3] == oh && t[3] == ':' && t[4..6] == om
  {
  }

  /** ISOText is the date, the time, the fraction and the zone, at offsets 0, 10, 19 and 23. */
  lemma TextGroups(y: string, mo: string, da: string, h: string, mi: string,
                   se: string, ms: string, sg: string, oh: string, om: string)
    requires |y| == 4 && |mo| == 2 && |da| == 2 && |h| == 2 && |mi| == 2 && |se| == 2
    requires |ms| == 3 && |sg| == 1 && |oh| == 2 && |om| == 2
    ensures var s := ISOText(y, mo, da, h, mi, se, ms, sg, oh, om);
      && |s| == 29
      && s[0..10] == y + "-" + mo + "-" + da
      && s[10..19] == "T" + h + ":" + mi + ":" + se
      && s[19..23] == "." + ms
      && s[23..29] == sg + oh + ":" + om
  {
    var date := y + "-" + mo + "-" + da;
    var time := "T" + h + ":" + mi + ":" + se;
    var frac := "." + ms;
    var zone := sg + oh + ":" + om;
    assert ISOText(y, mo, da, h, mi, se, ms, sg, oh, om) == date + time + frac + zone;
    JoinLayout(date, time, frac, zone);
  }

  /** The date fields of ISOText. */
  lemma TextDate(y: string, mo: string, da: string, h: string, mi: string,
                 se: string, ms: string, sg: string, oh: string, om: string)
    requires |y| == 4 && |mo| == 2 && |da| == 2 && |h| == 2 && |mi| == 2 && |se| == 2
    requires |ms| == 3 && |sg| == 1 && |oh| == 2 && |om| == 2
    ensures var s := ISOText(y, mo, da, h, mi, se, ms, sg, oh, om);
      |s| == 29 && s[0..4] == y && s[4] == '-' && s[5..7] == mo && s[7] == '-' && s[8..10] == da
  {
    var s := ISOText(y, mo, da, h, mi, se, ms, sg, oh, om);
    var date := y + "-" + mo + "-" + da;
    TextGroups(y, mo, da, h, mi, se, ms, sg, oh, om);
    DateLayout(y, mo, da);
    SubSlice(s, 0, date, 0, 4);
    SubSlice(s, 0, date, 5, 7);
    SubSlice(s, 0, date, 8, 10);
    assert s[4] == s[0..10][4] && s[7] == s[0..10][7];
  }

  /** The time fields of ISOText. */
  lemma TextTime(y: string, mo: string, da: string, h: string, mi: string,
                 se: string, ms: string, sg: string, oh: string, om: string)
    requires |y| == 4 && |mo| == 2 && |da| == 2 && |h| == 2 && |mi| == 2 && |se| == 2
    requires |ms| == 3 && |sg| == 1 && |oh| == 2 && |om| == 2
    ensures var s := ISOText(y, mo, da, h, mi, se, ms, sg, oh, om);
      && |s| == 29 && s[10] == 'T' && s[11..13] == h && s[13] == ':' && s[14..16] == mi && s[16] == ':'
      && s[17..19] == se && s[19] == '.' && s[20..23] == ms
  {
    var s := ISOText(y, mo, da, h, mi, se, ms, sg, oh, om);
    var time := "T" + h + ":" + mi + ":" + se;
    var frac := "." + ms;
    TextGroups(y, mo, da, h, mi, se, ms, sg, oh, om);
    TimeLayout(h, mi, se);
    assert |frac| == 4 && frac[0] == '.' && frac[1..4] == ms;
    SubSlice(s, 10, time, 1, 3);
    SubSlice(s, 10, time, 4, 6);
    SubSlice(s, 10, time, 7, 9);
    SubSlice(s, 19, frac, 1, 4);
    assert s[10] == s[10..19][0] && s[13] == s[10..19][3] && s[16] == s[10..19][6];
    assert s[19] == s[19..23][0];
  }

  /** The zone fields of ISOText. */
  lemma TextZone(y: string, mo: string, da: string, h: string, mi: string,
                 se: string, ms: string, sg: string, oh: string, om: string)
    requires |y| == 4 && |mo| == 2 && |da| == 2 && |h| == 2 && |mi| == 2 && |se| == 2
    requires |ms| == 3 && |sg| == 1 && |oh| == 2 && |om| == 2
    ensures var s := ISOText(y, mo, da, h, mi, se, ms, sg, oh, om);
      |s| == 29 && s[23..24] == sg && s[24..26] == oh && s[26] == ':' && s[27..29] == om
  {
    var s := ISOText(y, mo, da, h, mi, se, ms, sg, oh, om);
    var zone := sg + oh + ":" + om;
    TextGroups(y, mo, da, h, mi, se, ms, sg, oh, om);
    ZoneLayout(sg, oh, om);
    SubSlice(s, 23, zone, 0, 1);
    SubSlice(s, 23, zone, 1, 3);
    SubSlice(s, 23, zone, 4, 6);
    assert s[26] == s[23..29][3];
  }

  /** Where each piece of ISOText lands when the pieces have the fixed widths. */
  lemma TextLayout(y: string, mo: string, da: string, h: string, mi: string,
                   se: string, ms: string, sg: string, oh: string, om: string)
    requires |y| == 4 && |mo| == 2 && |da| == 2 && |h| == 2 && |mi| == 2 && |se| == 2
    requires |ms| == 3 && |sg| == 1 && |oh| == 2 && |om| == 2
    ensures var s := ISOText(y, mo, da, h, mi, se, ms, sg, oh, om);
      && |s| == 29
      && s[0..4] == y && s[4] == '-' && s[5..7] == mo && s[7] == '-' && s[8..10] == da
      && s[10] == 'T' && s[11..13] == h && s[13] == ':' && s[14..16] == mi && s[16] == ':'
      && s[17..19] == se && s[19] == '.' && s[20..23] == ms && s[23..24] == sg
      && s[24..26] == oh && s[26] == ':' && s[27..29] == om
  {
    TextDate(y, mo, da, h, mi, se, ms, sg, oh, om);
    TextTime(y, mo, da, h, mi, se, ms, sg, oh, om);
    TextZone(y, mo, da, h, mi, se, ms, sg, oh, om);
  }

  /**
   * A reader for the fixed-width form "YYYY-MM-DDTHH:MM:SS.mmm±HH:MM" that
   * ToLocalISOString produces for a four-digit year; the partner of
   * ToLocalISOString in the round-trip lemma below.
   */
  function ParseLocalISO(s: string): Option<DateParts> {
    if |s| == 29
       && AllDigits(s[0..4]) && s[4] == '-' && AllDigits(s[5..7]) && s[7] == '-'
       && AllDigits(s[8..10]) && s[10] == 'T' && AllDigits(s[11..13]) && s[13] == ':'
       && AllDigits(s[14..16]) && s[16] == ':' && AllDigits(s[17..19]) && s[19] == '.'
       && AllDigits(s[20..23]) && (s[23] == '+' || s[23] == '-')
       && AllDigits(s[24..26]) && s[26] == ':' && AllDigits(s[27..29])
       && DigitsValue(s[5..7]) >= 1
    then
      var offset := DigitsValue(s[24..26]) * 60 + DigitsValue(s[27..29]);
      var tzo := if s[23] == '+' then offset else -offset;
      Some(DateParts(DigitsValue(s[0..4]), DigitsValue(s[5..7]) - 1, DigitsValue(s[8..10]),
                     DigitsValue(s[11..13]), DigitsValue(s[14..16]), DigitsValue(s[17..19]),
                     DigitsValue(s[20..23]), -tzo))
    else None
  }

  /** The fields of ToLocalISOString's text, each at its fixed position. */
  lemma {:induction false} ISOLayout(d: DateParts)
    requires WellFormed(d)
    ensures var s := ToLocalISOString(d);
      var a := Abs(-d.timezoneOffset);
      && |s| == 29
      && s[0..4] == NatToString(d.fullYear) && s[4] == '-'
      && s[5..7] == Pad(d.month + 1) && s[7] == '-'
      && s[8..10] == Pad(d.date) && s[10] == 'T'
      && s[11..13] == Pad(d.hours) && s[13] == ':'
      && s[14..16] == Pad(d.minutes) && s[16] == ':'
      && s[17..19] == Pad(d.seconds) && s[19] == '.'
      && s[20..23] == PadStart3(d.milliseconds)
      && s[23..24] == OffsetSign(d)
      && s[24..26] == Pad(a / 60) && s[26] == ':'
      && s[27..29] == Pad(a % 60)
  {
    var a := Abs(-d.timezoneOffset);
    var y, mo, da := NatToString(d.fullYear), Pad(d.month + 1), Pad(d.date);
    var h, mi, se := Pad(d.hours), Pad(d.minutes), Pad(d.seconds);
    var ms, sg, oh, om := PadStart3(d.milliseconds), OffsetSign(d), Pad(a / 60), Pad(a % 60);
    assert |y| == 4 by {
      NatToStringInverse(d.fullYear);
      NumDigitsBounds(d.fullYear);
    }
    assert |mo| == 2 && |da| == 2 && |h| == 2 && |mi| == 2 && |se| == 2 && |oh| == 2 && |om| == 2 by {
      PadTwoDigits(d.month + 1);
      PadTwoDigits(d.date);
      PadTwoDigits(d.hours);
      PadTwoDigits(d.minutes);
      PadTwoDigits(d.seconds);
      PadTwoDigits(a / 60);
      PadTwoDigits(a % 60);
    }
    assert |ms| == 3 by {
      PadStart3Digits(d.milliseconds);
    }
    assert ToLocalISOString(d) == ISOText(y, mo, da, h, mi, se, ms, sg, oh, om);
    TextLayout(y, mo, da, h, mi, se, ms, sg, oh, om);
  }

  /**
   * The offset part of the text: '+' iff tzo >= 0, then floor(|tzo| / 60)
   * and |tzo| mod 60 as two digits each.
   */
  lemma ISOOffset(d: DateParts)
    requires WellFormed(d)
    ensures var s := ToLocalISOString(d);
      var tzo := -d.timezoneOffset;
      && |s| == 29
      && (s[23] == '+' <==> tzo >= 0)
      && (s[23] == '-' <==> tzo < 0)
      && AllDigits(s[24..26]) && DigitsValue(s[24..26]) == Abs(tzo) / 60
      && AllDigits(s[27..29]) && DigitsValue(s[27..29]) == Abs(tzo) % 60
  {
    var s := ToLocalISOString(d);
    var a := Abs(-d.timezoneOffset);
    ISOLayout(d);
    PadTwoDigits(a / 60);
    PadTwoDigits(a % 60);
    assert s[23] == s[23..24][0];
  }

  /**
   * The year, then the month printed as getMonth() + 1, the date, hours,
   * minutes, seconds and milliseconds as given, between the fixed separators.
   */
  lemma ISODateFields(d: DateParts)
    requires WellFormed(d)
    ensures var s := ToLocalISOString(d);
      && |s| == 29
      && s[4] == '-' && s[7] == '-' && s[10] == 'T' && s[13] == ':' && s[16] == ':' && s[19] == '.' && s[26] == ':'
      && AllDigits(s[0..4]) && DigitsValue(s[0..4]) == d.fullYear
      && AllDigits(s[5..7]) && DigitsValue(s[5..7]) == d.month + 1
      && AllDigits(s[8..10]) && DigitsValue(s[8..10]) == d.date
      && AllDigits(s[11..13]) && DigitsValue(s[11..13]) == d.hours
      && AllDigits(s[14..16]) && DigitsValue(s[14..16]) == d.minutes
      && AllDigits(s[17..19]) && DigitsValue(s[17..19]) == d.seconds
      && AllDigits(s[20..23]) && DigitsValue(s[20..23]) == d.milliseconds
  {
    ISOLayout(d);
    NatToStringInverse(d.fullYear);
    PadTwoDigits(d.month + 1);
    PadTwoDigits(d.date);
    PadTwoDigits(d.hours);
    PadTwoDigits(d.minutes);
    PadTwoDigits(d.seconds);
    PadStart3Digits(d.milliseconds);
  }

  /** Reading back the text of a well-formed local time gives the same components. */
  lemma ISORoundTrip(d: DateParts)
    requires WellFormed(d)
    ensures ParseLocalISO(ToLocalISOString(d)) == Some(d)
  {
    var s := ToLocalISOString(d);
    var tzo := -d.timezoneOffset;
    ISODateFields(d);
    ISOOffset(d);
    var offset := DigitsValue(s[24..26]) * 60 + DigitsValue(s[27..29]);
    assert offset == Abs(tzo);
    assert -(if s[23] == '+' then offset else -offset) == d.timezoneOffset;
  }


  /** The example of the doc comment: 2024-05-15 14:00:00.000 at UTC+07:00. */
  lemma ISOExample()
    ensures ToLocalISOString(DateParts(2024, 4, 15, 14, 0, 0, 0, -420)) == "2024-05-15T14:00:00.000+07:00"
  {
    ExamplePieces();
    ExampleText();
  }

  lemma ExamplePieces()
    ensures IntToString(2024) == "2024"
    ensures Pad(5) == "05" && Pad(15) == "15" && Pad(14) == "14" && Pad(0) == "00" && Pad(7) == "07"
    ensures PadStart3(0) == "000"
  {
    assert NatToString(2) == "2";
    assert NatToString(20) == "20";
    assert NatToString(202) == "202";
  }

  lemma ExampleText()
    ensures ISOText("2024", "05", "15", "14", "00", "00", "000", "+", "07", "00") == "2024-05-15T14:00:00.000+07:00"
  {
  }

  // ---------------------------------------------------------------------
  // Day boundaries and buckets

  /** `date.setHours(h, m, s, ms)` with components inside their ranges. */
  function SetHours(d: DateParts, h: nat, m: nat, s: nat, ms: nat): DateParts {
    d.(hours := h, minutes := m, seconds := s, milliseconds := ms)
  }

  /** Milliseconds since local midnight. */
  function MillisOfDay(d: DateParts): int {
    ((d.hours * 60 + d.minutes) * 60 + d.seconds) * 1000 + d.milliseconds
  }

  /** getDayBoundaries: local midnight and 23:59:59.999 of the day `now` falls in. */
  function GetDayBoundaries(now: DateParts): (r: (DateParts, DateParts))
    ensures r.0.fullYear == now.fullYear && r.0.month == now.month && r.0.date == now.date
    ensures r.1.fullYear == now.fullYear && r.1.month == now.month && r.1.date == now.date
    ensures MillisOfDay(r.0) == 0 && MillisOfDay(r.1) == 86400000 - 1
  {
    (SetHours(now, 0, 0, 0, 0), SetHours(now, 23, 59, 59, 999))
  }

  /** The start of the day is not after `now`, and its end not before. */
  lemma DayBoundariesContain(now: DateParts)
    requires now.hours < 24 && now.minutes < 60 && now.seconds < 60 && now.milliseconds < 1000
    ensures MillisOfDay(GetDayBoundaries(now).0) <= MillisOfDay(now) <= MillisOfDay(GetDayBoundaries(now).1)
  {
  }

  /** Local time at which bucket i starts (i:00:00.000) and ends (i:59:59.999). */
  function HourStart(base: DateParts, i: nat): DateParts {
    SetHours(base, i, 0, 0, 0)
  }

  function HourEnd(base: DateParts, i: nat): DateParts {
    SetHours(base, i, 59, 59, 999)
  }

  /** The bucket times tile the day: each hour is 3600000 ms from start to start; one ends 1 ms before the next starts. */
  lemma HoursPartitionDay(base: DateParts, i: nat)
    requires i < HOURS_PER_DAY
    ensures MillisOfDay(HourStart(base, i)) == i * 3600000
    ensures MillisOfDay(HourEnd(base, i)) == MillisOfDay(HourStart(base, i)) + 3600000 - 1
    ensures i + 1 < HOURS_PER_DAY ==> MillisOfDay(HourStart(base, i + 1)) == MillisOfDay(HourEnd(base, i)) + 1
    ensures i == 0 ==> HourStart(base, i) == GetDayBoundaries(base).0
    ensures i == HOURS_PER_DAY - 1 ==> HourEnd(base, i) == GetDayBoundaries(base).1
  {
  }

  /** What bucket i of createEmptyHourlyBuckets holds. */
  predicate IsEmptyBucket(b: HourlyHealthPayload, base: DateParts, i: nat) {
    && b.steps == 0.0 && b.activeCalories == 0.0 && b.distance == 0.0
    && b.activeCaloriesUnit == "kcal" && b.distanceUnit == "m"
    && b.startDate == ToLocalISOString(HourStart(base, i))
    && b.endDate == ToLocalISOString(HourEnd(base, i))
  }

  /** The bucket list createEmptyHourlyBuckets builds, as a value. */
  function EmptyBuckets(today: DateParts): (bs: seq<HourlyHealthPayload>)
    ensures |bs| == HOURS_PER_DAY
    ensures forall i | 0 <= i < |bs| :: IsEmptyBucket(bs[i], today, i)
  {
    seq(HOURS_PER_DAY, i requires 0 <= i < HOURS_PER_DAY =>
      HourlyHealthPayload(0.0, 0.0, "kcal", 0.0, "m",
                          ToLocalISOString(HourStart(today, i)), ToLocalISOString(HourEnd(today, i))))
  }

  /** IsEmptyBucket pins every field, so 24 empty buckets are EmptyBuckets. */
  lemma EmptyBucketsUnique(today: DateParts, bs: seq<HourlyHealthPayload>)
    requires |bs| == HOURS_PER_DAY && forall i | 0 <= i < |bs| :: IsEmptyBucket(bs[i], today, i)
    ensures bs == EmptyBuckets(today)
  {
  }

  /**
   * createEmptyHourlyBuckets: 24 zeroed buckets for the day of `today`,
   * bucket i spanning i:00:00.000 to i:59:59.999 local time.
   */
  method CreateEmptyHourlyBuckets(today: DateParts) returns (buckets: seq<HourlyHealthPayload>)
    ensures |buckets| == HOURS_PER_DAY
    ensures forall i | 0 <= i < |buckets| :: IsEmptyBucket(buckets[i], today, i)
  {
    buckets := [];
    var baseDate := SetHours(today, 0, 0, 0, 0);
    for i := 0 to HOURS_PER_DAY
      invariant |buckets| == i
      invariant forall j | 0 <= j < i :: IsEmptyBucket(buckets[j], today, j)
    {
      var startDate := SetHours(baseDate, i, 0, 0, 0);
      var endDate := SetHours(baseDate, i, 59, 59, 999);
      buckets := buckets + [HourlyHealthPayload(0.0, 0.0, "kcal", 0.0, "m",
                                                ToLocalISOString(startDate), ToLocalISOString(endDate))];
    }
  }
}
