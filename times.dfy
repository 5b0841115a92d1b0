/** Clock times as the booking pages and the appointment API handle them:
    "HH:MM" text, the `split(':').map(Number)` reading of it, the
    `pad(getHours()):pad(getMinutes())` writing of a Date, and the inclusive
    string-compared overlap test of the conflict query. A Date's time of day
    is modelled as minutes since midnight, modulo one day. */
module Times {
  import opened Text

  const MinutesPerDay: int := 1440

  /** Two digits, a colon, two digits. */
  predicate WellFormedClock(s: string) {
    |s| == 5 && IsDigit(s[0]) && IsDigit(s[1]) && s[2] == ':' && IsDigit(s[3]) && IsDigit(s[4])
  }

  function ClockHours(s: string): nat
    requires WellFormedClock(s)
  {
    DigitValue(s[0]) * 10 + DigitValue(s[1])
  }

  function ClockMins(s: string): nat
    requires WellFormedClock(s)
  {
    DigitValue(s[3]) * 10 + DigitValue(s[4])
  }

  /** Well-formed with a minute field below 60 (the hour field is free). */
  predicate ZeroPaddedClock(s: string) {
    WellFormedClock(s) && ClockMins(s) < 60
  }

  /** A time of day: zero-padded, hours below 24. */
  predicate TimeOfDay(s: string) {
    ZeroPaddedClock(s) && ClockHours(s) < 24
  }

  function ClockMinutes(s: string): nat
    requires WellFormedClock(s)
  {
    ClockHours(s) * 60 + ClockMins(s)
  }

  // ---------------------------------------------------------------------
  // String order of clock text

  /** One step of the string order on non-empty strings. */
  lemma LexLtStep(a: string, b: string)
    requires a != [] && b != []
    ensures LexLt(a, b) == if a[0] != b[0] then a[0] < b[0] else LexLt(a[1..], b[1..])
  {
  }

  /** For zero-padded "HH:MM" text, string order is minutes-of-day order. */
  lemma ClockLexLt(a: string, b: string)
    requires ZeroPaddedClock(a) && ZeroPaddedClock(b)
    ensures LexLt(a, b) <==> ClockMinutes(a) < ClockMinutes(b)
  {
    LexLtStep(a, b);
    LexLtStep(a[1..], b[1..]);
    LexLtStep(a[2..], b[2..]);
    LexLtStep(a[3..], b[3..]);
    LexLtStep(a[4..], b[4..]);
    assert a[1..][1..] == a[2..] && b[1..][1..] == b[2..];
    assert a[2..][1..] == a[3..] && b[2..][1..] == b[3..];
    assert a[3..][1..] == a[4..] && b[3..][1..] == b[4..];
    assert a[4..][1..] == [] && b[4..][1..] == [];
  }

  /** The `<=` of the conflict query agrees with minutes-of-day `<=`. */
  lemma ClockLexLe(a: string, b: string)
    requires ZeroPaddedClock(a) && ZeroPaddedClock(b)
    ensures LexLe(a, b) <==> ClockMinutes(a) <= ClockMinutes(b)
  {
    ClockLexLt(b, a);
  }

  // ---------------------------------------------------------------------
  // The overlap test

  /** The conflict condition on a stored slot [s1, e1] against a requested
      slot [s2, e2]: `startTime <= endTime` and `endTime >= startTime`,
      both inclusive, both done by the database on the text; LexLe stands
      in for the column's collation, which it matches on zero-padded
      clocks. */
  predicate Overlaps(s1: string, e1: string, s2: string, e2: string) {
    LexLe(s1, e2) && LexLe(s2, e1)
  }

  /** Which slot is the stored one does not matter. */
  lemma OverlapsSymmetric(s1: string, e1: string, s2: string, e2: string)
    ensures Overlaps(s1, e1, s2, e2) <==> Overlaps(s2, e2, s1, e1)
  {
  }

  /** On zero-padded clock text the test is closed-interval intersection of
      minutes of the day. */
  lemma OverlapsIsIntersection(s1: string, e1: string, s2: string, e2: string)
    requires ZeroPaddedClock(s1) && ZeroPaddedClock(e1)
    requires ZeroPaddedClock(s2) && ZeroPaddedClock(e2)
    ensures Overlaps(s1, e1, s2, e2) <==>
            ClockMinutes(s1) <= ClockMinutes(e2) && ClockMinutes(s2) <= ClockMinutes(e1)
  {
    ClockLexLe(s1, e2);
    ClockLexLe(s2, e1);
  }

  /** Both comparisons are inclusive: back-to-back slots conflict. */
  lemma BackToBackSlotsConflict()
    ensures Overlaps("09:00", "09:30", "09:30", "10:00")
  {
    OverlapsIsIntersection("09:00", "09:30", "09:30", "10:00");
  }

  // ---------------------------------------------------------------------
  // Writing a Date's time of day: `${pad(getHours())}:${pad(getMinutes())}`

  /** `n.toString().padStart(2, '0')`. */
  function Pad2(n: nat): string {
    PadStart(NatToString(n), 2, '0')
  }

  /** Below 100, the padded text is exactly the two decimal digits. */
  lemma Pad2Digits(n: nat)
    requires n < 100
    ensures Pad2(n) == [DigitChar(n / 10), DigitChar(n % 10)]
  {
    if n < 10 {
      assert NatToString(n) == [DigitChar(n)];
      PadStartOne(DigitChar(n));
      assert n / 10 == 0 && n % 10 == n;
    } else {
      assert NatToString(n / 10) == [DigitChar(n / 10)];
      assert NatToString(n) == [DigitChar(n / 10), DigitChar(n % 10)];
    }
  }

  lemma PadStartOne(c: char)
    ensures PadStart([c], 2, '0') == ['0', c]
  {
  }

  /** `${pad(h)}:${pad(m)}`. */
  function ClockText(h: nat, m: nat): string {
    Pad2(h) + ":" + Pad2(m)
  }

  /** Two zero-padded decimal fields around a colon. */
  function TwoDigitFields(h: nat, m: nat): (r: string)
    requires h < 100 && m < 100
    ensures WellFormedClock(r) && ClockHours(r) == h && ClockMins(r) == m
  {
    [DigitChar(h / 10), DigitChar(h % 10), ':', DigitChar(m / 10), DigitChar(m % 10)]
  }

  /** Below 100 the padded fields are the two-digit fields. */
  lemma ClockTextFields(h: nat, m: nat)
    requires h < 100 && m < 100
    ensures ClockText(h, m) == TwoDigitFields(h, m)
  {
    Pad2Digits(h);
    Pad2Digits(m);
  }

  /** The "HH:MM" text of the time of day that lies `minutes` after some
      midnight (negative values count back), as Date arithmetic gives it:
      hours and minutes of `minutes % 1440`, each as two digits. */
  function FormatClock(minutes: int): (r: string)
    ensures TimeOfDay(r)
    ensures ClockMinutes(r) == minutes % 1440
  {
    var m := minutes % 1440;
    TwoDigitFields(m / 60, m % 60)
  }

  /** FormatClock is the `${pad(getHours())}:${pad(getMinutes())}` text. */
  lemma FormatClockIsPadded(minutes: int)
    ensures FormatClock(minutes) == ClockText((minutes % 1440) / 60, (minutes % 1440) % 60)
  {
    ClockTextFields((minutes % 1440) / 60, (minutes % 1440) % 60);
  }

  /** FormatClock is the inverse of reading a time of day. */
  lemma FormatClockMinutes(s: string)
    requires TimeOfDay(s)
    ensures FormatClock(ClockMinutes(s)) == s
  {
    FormatClockOfFields(ClockHours(s), ClockMins(s));
    FieldsOfClock(s);
  }

  /** Formatting hours and minutes of a day gives their two-digit fields. */
  lemma FormatClockOfFields(h: nat, m: nat)
    requires h < 24 && m < 60
    ensures FormatClock(h * 60 + m) == TwoDigitFields(h, m)
  {
    HourMinuteSplit(h, m);
  }

  /** Well-formed clock text is the two-digit fields of its own hours and
      minutes. */
  lemma FieldsOfClock(s: string)
    requires WellFormedClock(s)
    ensures TwoDigitFields(ClockHours(s), ClockMins(s)) == s
  {
    TwoDigitSplit(DigitValue(s[0]), DigitValue(s[1]));
    TwoDigitSplit(DigitValue(s[3]), DigitValue(s[4]));
    DigitRoundTrip(s[0]);
    DigitRoundTrip(s[1]);
    DigitRoundTrip(s[3]);
    DigitRoundTrip(s[4]);
  }

  lemma DigitRoundTrip(c: char)
    requires IsDigit(c)
    ensures DigitChar(DigitValue(c)) == c
  {
  }

  lemma TwoDigitSplit(a: nat, b: nat)
    requires a < 10 && b < 10
    ensures (a * 10 + b) / 10 == a && (a * 10 + b) % 10 == b
  {
  }

  lemma HourMinuteSplit(h: nat, m: nat)
    requires h < 24 && m < 60
    ensures (h * 60 + m) % 1440 == h * 60 + m
    ensures (h * 60 + m) / 60 == h && (h * 60 + m) % 60 == m
  {
  }

  // ---------------------------------------------------------------------
  // Reading clock text: `const [hh, mm] = text.split(':').map(Number)`

  /** The first two numbers of `text.split(':').map(Number)`, as they are;
      None when either is NaN or missing. */
  function ClockNumbers(text: string): Option<(real, real)> {
    var parts := Split(text, ':');
    if |parts| < 2 then None
    else match (JsNumber(parts[0]), JsNumber(parts[1]))
      case (Some(h), Some(m)) => Some((h, m))
      case _ => None
  }

  /** Hours and minutes as `setHours(hh, mm, 0, 0)` uses them (each
      truncated toward zero); None when either is NaN or missing. */
  function ParseClock(text: string): Option<(int, int)> {
    match ClockNumbers(text)
    case Some((h, m)) => Some((Trunc(h), Trunc(m)))
    case None => None
  }

  /** Reading zero-padded clock text gives its hour and minute fields. */
  lemma ParseZeroPadded(s: string)
    requires WellFormedClock(s)
    ensures ClockNumbers(s) == Some((ClockHours(s) as real, ClockMins(s) as real))
    ensures ParseClock(s) == Some((ClockHours(s), ClockMins(s)))
  {
    var h := s[..2];
    var m := s[3..];
    assert s == h + [':'] + m;
    assert AllDigits(h) && AllDigits(m);
    NoColon(h);
    NoColon(m);
    SplitAround(h, m, ':');
    DecimalTwoDigits(h);
    DecimalTwoDigits(m);
  }

  lemma NoColon(d: string)
    requires AllDigits(d)
    ensures ':' !in d && '.' !in d
  {
    assert forall i :: 0 <= i < |d| ==> d[i] != ':' && d[i] != '.';
  }

  lemma {:induction false} SplitAround(a: string, b: string, sep: char)
    requires sep !in a && sep !in b
    ensures Split(a + [sep] + b, sep) == [a, b]
  {
    if a == [] {
      assert a + [sep] + b == [sep] + b;
      assert ([sep] + b)[1..] == b;
      NoSeparatorSplit(b, sep);
    } else {
      assert (a + [sep] + b)[1..] == a[1..] + [sep] + b;
      SplitAround(a[1..], b, sep);
      assert [a[0]] + a[1..] == a;
    }
  }

  lemma DecimalTwoDigits(d: string)
    requires |d| == 2 && AllDigits(d)
    ensures JsNumber(d) == Some((DigitValue(d[0]) * 10 + DigitValue(d[1])) as real)
  {
    NoColon(d);
    NoSeparatorSplit(d, '.');
    assert d[..1][..0] == [] && d[..1][0] == d[0];
    assert DigitsValue(d[..1]) == DigitValue(d[0]);
    assert d[..|d| - 1] == d[..1];
    assert DigitsValue(d) == DigitValue(d[0]) * 10 + DigitValue(d[1]);
    assert d[0] != '-' && d[0] != '+' && d != [];
  }

  /** `${pad(start.getHours())}:${pad(start.getMinutes())}` after
      `start.setHours(hh, mm, 0, 0)` and `offset` minutes added, for an
      already read time; an unreadable time gives "NaN:NaN". */
  function ShiftFrom(time: Option<(int, int)>, offset: int): (r: string)
    ensures time.Some? ==>
              TimeOfDay(r) && ClockMinutes(r) == (time.value.0 * 60 + time.value.1 + offset) % 1440
    ensures time.None? ==> r == "NaN:NaN"
  {
    match time
    case Some((h, m)) => FormatClock(h * 60 + m + offset)
    case None => "NaN:NaN"
  }

  /** The clock text `offset` minutes after the time written in `text`. */
  function ShiftedClock(text: string, offset: int): string {
    ShiftFrom(ParseClock(text), offset)
  }

  /** Moving zero-padded clock text on by `offset` minutes gives a time of
      day `offset` minutes later, modulo a day. */
  lemma ShiftedTimeOfDay(s: string, offset: int)
    requires ZeroPaddedClock(s)
    ensures TimeOfDay(ShiftedClock(s, offset))
    ensures ClockMinutes(ShiftedClock(s, offset)) == (ClockMinutes(s) + offset) % 1440
  {
    ParseZeroPadded(s);
  }

  /** Moving a time of day on by nothing gives the same text back. */
  lemma ShiftByZero(s: string)
    requires TimeOfDay(s)
    ensures ShiftedClock(s, 0) == s
  {
    ParseZeroPadded(s);
    assert ShiftedClock(s, 0) == FormatClock(ClockMinutes(s));
    FormatClockMinutes(s);
  }

  /** On zero-padded text the shifted clock is the formatted sum. */
  lemma ShiftedIsFormatted(s: string, offset: int)
    requires ZeroPaddedClock(s)
    ensures ShiftedClock(s, offset) == FormatClock(ClockMinutes(s) + offset)
  {
    ParseZeroPadded(s);
    ShiftFromClock(s, offset);
  }

  lemma ShiftFromClock(s: string, offset: int)
    requires WellFormedClock(s)
    ensures ShiftFrom(Some((ClockHours(s), ClockMins(s))), offset) == FormatClock(ClockMinutes(s) + offset)
  {
  }

  /** Half past eleven plus an hour wraps past midnight to "00:30". */
  lemma WrapsPastMidnight(s: string)
    requires WellFormedClock(s) && ClockHours(s) == 23 && ClockMins(s) == 30
    ensures ShiftedClock(s, 60) == "00:30"
  {
    ShiftedIsFormatted(s, 60);
    FormatWrapped();
  }

  lemma FormatWrapped()
    ensures FormatClock(1470) == "00:30"
  {
    FormatClockOfFields(0, 30);
    assert 0 * 60 + 30 + 1440 == 1470;
    assert FormatClock(1470) == FormatClock(30);
  }
}
