/** Calendar dates as Python's datetime.date sees them (proleptic Gregorian),
    the strftime renderings the core uses ('%Y-%m-%d', '%H:%M') and the
    strptime readings of the same two formats. */
module Dates {
  import opened Text
  import opened Wrappers

  datatype Date = Date(year: int, month: int, day: int)

  predicate IsLeap(y: int)
  {
    y % 4 == 0 && (y % 100 != 0 || y % 400 == 0)
  }

  function DaysInMonth(y: int, m: int): int
  {
    if m == 2 then (if IsLeap(y) then 29 else 28)
    else if m == 4 || m == 6 || m == 9 || m == 11 then 30
    else 31
  }

  /** A date datetime.date accepts (years beyond 9999 are admitted here). */
  predicate Valid(d: Date)
  {
    1 <= d.year && 1 <= d.month <= 12 && 1 <= d.day <= DaysInMonth(d.year, d.month)
  }

  /** A number that orders valid dates chronologically: d1 comes before d2
      exactly when Key(d1) < Key(d2). */
  function Key(d: Date): int
  {
    d.year * 372 + d.month * 31 + d.day
  }

  /** date + timedelta(days=1). */
  function NextDay(d: Date): (r: Date)
    requires Valid(d)
    ensures Valid(r) && Key(d) < Key(r)
  {
    if d.day < DaysInMonth(d.year, d.month) then Date(d.year, d.month, d.day + 1)
    else if d.month < 12 then Date(d.year, d.month + 1, 1)
    else Date(d.year + 1, 1, 1)
  }

  /** No valid date lies strictly between a date and the next one. */
  lemma NextDayIsNext(d: Date, e: Date)
    requires Valid(d) && Valid(e) && Key(d) < Key(e)
    ensures Key(NextDay(d)) <= Key(e)
  {
    if e.year == d.year {
      if e.month != d.month {
        assert e.month > d.month;
      }
    } else {
      assert e.year > d.year;
    }
  }

  /** date + timedelta(days=n) for n >= 0. */
  function AddDays(d: Date, n: nat): (r: Date)
    requires Valid(d)
    ensures Valid(r)
    ensures n > 0 ==> Key(d) < Key(r)
    decreases n
  {
    if n == 0 then d else AddDays(NextDay(d), n - 1)
  }

  function YearLength(y: int): int
  {
    if IsLeap(y) then 366 else 365
  }

  /** Days in the years before year y (date.toordinal's year part), year by
      year; DaysBeforeYearClosed gives CPython's closed form. */
  function DaysBeforeYear(y: int): int
    requires y >= 1
    decreases y
  {
    if y == 1 then 0 else DaysBeforeYear(y - 1) + YearLength(y - 1)
  }

  /** The year-by-year count equals the closed form
      365 * p + p / 4 - p / 100 + p / 400 with p = y - 1. */
  lemma {:induction false} DaysBeforeYearClosed(y: int)
    requires y >= 1
    ensures var p := y - 1; DaysBeforeYear(y) == p * 365 + p / 4 - p / 100 + p / 400
    decreases y
  {
    if y > 1 {
      DaysBeforeYearClosed(y - 1);
      LeapSum(y - 1);
    }
  }

  /** Days in the months of year y before month m. */
  function DaysBeforeMonth(y: int, m: int): int
    requires 1 <= m <= 12
  {
    var table := [0, 31, 59, 90, 120, 151, 181, 212, 243, 273, 304, 334];
    table[m - 1] + (if m > 2 && IsLeap(y) then 1 else 0)
  }

  /** date.toordinal(): 0001-01-01 is day 1. */
  function Ordinal(d: Date): int
    requires Valid(d)
  {
    DaysBeforeYear(d.year) + DaysBeforeMonth(d.year, d.month) + d.day
  }

  /** The day after a date has the next ordinal. */
  lemma OrdinalNextDay(d: Date)
    requires Valid(d)
    ensures Ordinal(NextDay(d)) == Ordinal(d) + 1
  {
    if d.day == DaysInMonth(d.year, d.month) {
      if d.month < 12 {
        MonthStep(d.year, d.month);
      }
    }
  }

  /** Month m + 1 starts DaysInMonth(y, m) days after month m. */
  lemma MonthStep(y: int, m: int)
    requires 1 <= m < 12
    ensures DaysBeforeMonth(y, m + 1) == DaysBeforeMonth(y, m) + DaysInMonth(y, m)
  {
  }

  /** Adding n days adds n to the ordinal. */
  lemma {:induction false} OrdinalAddDays(d: Date, n: nat)
    requires Valid(d)
    ensures Ordinal(AddDays(d, n)) == Ordinal(d) + n
    decreases n
  {
    if n > 0 {
      var e := NextDay(d);
      OrdinalNextDay(d);
      OrdinalAddDays(e, n - 1);
      assert AddDays(d, n) == AddDays(e, n - 1);
    }
  }

  /** Distinct valid dates have distinct keys. */
  lemma KeyInjective(d: Date, e: Date)
    requires Valid(d) && Valid(e) && Key(d) == Key(e)
    ensures d == e
  {
  }

  /** Ordinals order dates as the calendar does. */
  lemma {:induction false} OrdinalMonotone(d: Date, e: Date)
    requires Valid(d) && Valid(e) && Key(d) < Key(e)
    ensures Ordinal(d) < Ordinal(e)
    decreases Key(e) - Key(d)
  {
    var n := NextDay(d);
    OrdinalNextDay(d);
    NextDayIsNext(d, e);
    if Key(n) < Key(e) {
      OrdinalMonotone(n, e);
    } else {
      KeyInjective(n, e);
    }
  }

  /** A valid date is determined by its ordinal. */
  lemma OrdinalInjective(d: Date, e: Date)
    requires Valid(d) && Valid(e) && Ordinal(d) == Ordinal(e)
    ensures d == e
  {
    if Key(d) < Key(e) {
      OrdinalMonotone(d, e);
    } else if Key(e) < Key(d) {
      OrdinalMonotone(e, d);
    } else {
      KeyInjective(d, e);
    }
  }

  /** date.weekday(), computed as CPython does from the ordinal: 0 for
      Monday through 6 for Sunday. */
  function Weekday(d: Date): (w: int)
    requires Valid(d)
    ensures 0 <= w < 7
  {
    (Ordinal(d) + 6) % 7
  }

  predicate IsSunday(d: Date)
    requires Valid(d)
  {
    Weekday(d) == 6
  }

  /** Days cycle through the week: the day after a date falls on the next
      weekday. */
  lemma WeekdayNextDay(d: Date)
    requires Valid(d)
    ensures Weekday(NextDay(d)) == (Weekday(d) + 1) % 7
  {
    OrdinalNextDay(d);
    ModSucc(Ordinal(d) + 6);
  }

  lemma ModSucc(x: int)
    ensures (x + 1) % 7 == (x % 7 + 1) % 7
  {
  }

  /** y / 4, y / 100 and y / 400 each grow by one exactly at their multiples. */
  lemma Div4Step(y: int)
    ensures y / 4 - (y - 1) / 4 == (if y % 4 == 0 then 1 else 0)
  {
  }

  lemma Div100Step(y: int)
    ensures y / 100 - (y - 1) / 100 == (if y % 100 == 0 then 1 else 0)
  {
  }

  lemma Div400Step(y: int)
    ensures y / 400 - (y - 1) / 400 == (if y % 400 == 0 then 1 else 0)
  {
  }

  lemma MultipleChain(y: int)
    ensures y % 400 == 0 ==> y % 100 == 0
    ensures y % 100 == 0 ==> y % 4 == 0
  {
    if y % 400 == 0 {
      var q := y / 400;
      assert y == 400 * q;
      MultipleOf100(4 * q);
    }
    if y % 100 == 0 {
      var q := y / 100;
      assert y == 100 * q;
      MultipleOf4(25 * q);
    }
  }

  lemma MultipleOf100(t: int)
    ensures (100 * t) % 100 == 0
  {
  }

  lemma MultipleOf4(t: int)
    ensures (4 * t) % 4 == 0
  {
  }

  /** How the leap-year correction term grows from y - 1 to y. */
  lemma LeapSum(y: int)
    ensures var p := y - 1;
      (y / 4 - y / 100 + y / 400) - (p / 4 - p / 100 + p / 400) == (if IsLeap(y) then 1 else 0)
  {
    Div4Step(y);
    Div100Step(y);
    Div400Step(y);
    MultipleChain(y);
  }

  /** strftime('%Y-%m-%d'). Python's dates stop at year 9999; later years
      are written out in full. */
  function FormatDate(d: Date): (r: string)
    requires Valid(d)
    ensures d.year < 10000 ==> |r| == 10
  {
    (if d.year < 10000 then Pad4(d.year) else NatToString(d.year)) + "-" + Pad2(d.month) + "-" + Pad2(d.day)
  }

  /** strftime('%H:%M') of a time of day. */
  function FormatHM(h: nat, m: nat): (r: string)
    requires h < 24 && m < 60
    ensures |r| == 5
  {
    Pad2(h) + ":" + Pad2(m)
  }

  predicate AllDigits(t: string)
  {
    forall k :: 0 <= k < |t| ==> IsAsciiDigit(t[k])
  }

  /** strptime's %H: 2[0-3] | [0-1]\d | \d. */
  predicate HourToken(t: string)
  {
    || (|t| == 2 && t[0] == '2' && '0' <= t[1] <= '3')
    || (|t| == 2 && (t[0] == '0' || t[0] == '1') && IsAsciiDigit(t[1]))
    || (|t| == 1 && IsAsciiDigit(t[0]))
  }

  /** strptime's %M: [0-5]\d | \d. */
  predicate MinuteToken(t: string)
  {
    || (|t| == 2 && '0' <= t[0] <= '5' && IsAsciiDigit(t[1]))
    || (|t| == 1 && IsAsciiDigit(t[0]))
  }

  /** strptime's %Y: four digits. */
  predicate YearToken(t: string)
  {
    |t| == 4 && AllDigits(t)
  }

  /** strptime's %m: 1[0-2] | 0[1-9] | [1-9]. */
  predicate MonthToken(t: string)
  {
    || (|t| == 2 && t[0] == '1' && '0' <= t[1] <= '2')
    || (|t| == 2 && t[0] == '0' && '1' <= t[1] <= '9')
    || (|t| == 1 && '1' <= t[0] <= '9')
  }

  /** strptime's %d: 3[01] | [12]\d | 0[1-9] | [1-9] | ' '[1-9]. */
  predicate DayToken(t: string)
  {
    || (|t| == 2 && t[0] == '3' && (t[1] == '0' || t[1] == '1'))
    || (|t| == 2 && (t[0] == '1' || t[0] == '2') && IsAsciiDigit(t[1]))
    || (|t| == 2 && t[0] == '0' && '1' <= t[1] <= '9')
    || (|t| == 1 && '1' <= t[0] <= '9')
    || (|t| == 2 && t[0] == ' ' && '1' <= t[1] <= '9')
  }

  function Pow10(n: nat): nat
  {
    if n == 0 then 1 else 10 * Pow10(n - 1)
  }

  lemma {:induction false} DigitsValueBound(t: string)
    requires AllDigits(t)
    ensures DigitsValue(t) < Pow10(|t|)
  {
    if t != [] {
      DigitsValueBound(t[..|t| - 1]);
    }
  }

  lemma OneDigit(t: string)
    requires |t| == 1 && AllDigits(t)
    ensures DigitsValue(t) == DigitValue(t[0])
  {
    assert t[..0] == [];
  }

  lemma TwoDigits(t: string)
    requires |t| == 2 && AllDigits(t)
    ensures DigitsValue(t) == DigitValue(t[0]) * 10 + DigitValue(t[1])
  {
    assert t[..1] == [t[0]];
    OneDigit(t[..1]);
  }

  lemma HourTokenValue(t: string)
    requires HourToken(t)
    ensures TokenValue(t) < 24
  {
    if |t| == 2 { TwoDigits(t); } else { OneDigit(t); }
  }

  lemma MinuteTokenValue(t: string)
    requires MinuteToken(t)
    ensures TokenValue(t) < 60
  {
    if |t| == 2 { TwoDigits(t); } else { OneDigit(t); }
  }

  function TokenValue(t: string): nat
  {
    if AllDigits(t) then DigitsValue(t)
    else if |t| == 2 && IsAsciiDigit(t[1]) then DigitValue(t[1])
    else 0
  }

  /** datetime.strptime(s, '%H:%M') reduced to (hour, minute); None where
      Python raises ValueError. */
  function ParseTime(s: string): (r: Option<(nat, nat)>)
    ensures r.Some? ==> r.value.0 < 24 && r.value.1 < 60
  {
    var parts := Split(s, ':');
    if |parts| == 2 && HourToken(parts[0]) && MinuteToken(parts[1]) then
      HourTokenValue(parts[0]);
      MinuteTokenValue(parts[1]);
      Some((TokenValue(parts[0]), TokenValue(parts[1])))
    else None
  }

  /** datetime.strptime(s, '%Y-%m-%d').date(); None where Python raises
      ValueError (no match, year 0, or a day past the month's end). */
  function ParseDate(s: string): (r: Option<Date>)
    ensures r.Some? ==> Valid(r.value) && r.value.year < 10000
  {
    var parts := Split(s, '-');
    if |parts| == 3 && YearToken(parts[0]) && MonthToken(parts[1]) && DayToken(parts[2]) then
      var d := Date(TokenValue(parts[0]), TokenValue(parts[1]), TokenValue(parts[2]));
      DigitsValueBound(parts[0]);
      assert Pow10(4) == 10000;
      if Valid(d) then Some(d) else None
    else None
  }

  lemma Pad2Free(n: nat, sep: char)
    requires n < 100 && !IsAsciiDigit(sep)
    ensures Free(Pad2(n), sep)
  {
  }

  lemma Pad4Free(n: nat, sep: char)
    requires n < 10000 && !IsAsciiDigit(sep)
    ensures Free(Pad4(n), sep)
  {
  }

  /** Reading back a rendered time of day gives the same hour and minute. */
  lemma ParseFormatTime(h: nat, m: nat)
    requires h < 24 && m < 60
    ensures ParseTime(FormatHM(h, m)) == Some((h, m))
  {
    Pad2Free(h, ':');
    Pad2Free(m, ':');
    assert FormatHM(h, m) == Join([Pad2(h), Pad2(m)], ':');
    SplitJoin([Pad2(h), Pad2(m)], ':');
  }

  /** Reading back a rendered date gives the same date. */
  lemma ParseFormatDate(d: Date)
    requires Valid(d) && d.year < 10000
    ensures ParseDate(FormatDate(d)) == Some(d)
  {
    Pad4Free(d.year, '-');
    Pad2Free(d.month, '-');
    Pad2Free(d.day, '-');
    var parts := [Pad4(d.year), Pad2(d.month), Pad2(d.day)];
    assert Join(parts[1..], '-') == Pad2(d.month) + "-" + Pad2(d.day);
    assert FormatDate(d) == Join(parts, '-');
    SplitJoin(parts, '-');
    YearPad4(d.year);
    MonthPad2(d.month);
    DayPad2(d.day);
  }

  /** A rendered year is a %Y token worth the year. */
  lemma YearPad4(y: nat)
    requires y < 10000
    ensures YearToken(Pad4(y)) && TokenValue(Pad4(y)) == y
  {
  }

  /** A rendered month is a %m token worth the month. */
  lemma MonthPad2(m: nat)
    requires 1 <= m <= 12
    ensures MonthToken(Pad2(m)) && TokenValue(Pad2(m)) == m
  {
    var r := Pad2(m);
    assert AllDigits(r);
    if m < 10 {
      assert r[0] == '0' && r[1] == DigitChar(m);
    } else {
      assert r[0] == '1' && r[1] == DigitChar(m - 10);
    }
  }

  /** A rendered day of the month is a %d token worth the day. */
  lemma DayPad2(d: nat)
    requires 1 <= d <= 31
    ensures DayToken(Pad2(d)) && TokenValue(Pad2(d)) == d
  {
    var r := Pad2(d);
    assert AllDigits(r);
    if d < 10 {
      assert r[0] == '0' && r[1] == DigitChar(d);
    } else if d < 20 {
      assert r[0] == '1';
    } else if d < 30 {
      assert r[0] == '2';
    } else {
      assert r[0] == '3' && r[1] == DigitChar(d - 30);
    }
  }

  /** Only well-formed times are read: a parsed time has the shape H:M. */
  lemma ParseTimeShape(s: string)
    requires ParseTime(s).Some?
    ensures exists i :: 0 < i < |s| - 1 && s[i] == ':'
  {
    var parts := Split(s, ':');
    JoinSplit(s, ':');
    assert s == parts[0] + [':'] + parts[1];
    assert s[|parts[0]|] == ':';
  }

  // ------------------------------------------------ date and time together

  /** The first whitespace character at or after position i (|t| when
      there is none). */
  function SpaceFrom(t: string, i: nat): (r: nat)
    requires i <= |t|
    ensures i <= r <= |t|
    ensures r < |t| ==> IsSpace(t[r])
    ensures forall k :: i <= k < r ==> !IsSpace(t[k])
    decreases |t| - i
  {
    if i == |t| || IsSpace(t[i]) then i else SpaceFrom(t, i + 1)
  }

  /** datetime.strptime(s, '%Y-%m-%d %H:%M') reduced to the date, the hour
      and the minute; None where Python raises ValueError. strptime turns
      the space of the format into \s+, so any non-empty run of whitespace
      separates the day from the hour. A %d token holds whitespace only in
      front, so the day ends at the first whitespace after its first
      character; the %H:%M part is what follows the run. */
  function ParseDateTime(s: string): (r: Option<(Date, nat, nat)>)
    ensures r.Some? ==> Valid(r.value.0) && r.value.0.year < 10000 && r.value.1 < 24 && r.value.2 < 60
  {
    var parts := Split(s, '-');
    if |parts| != 3 || parts[2] == [] then None
    else
      var tail := parts[2];
      var n := SpaceFrom(tail, 1);
      var rest := tail[n..];
      var date := ParseDate(parts[0] + "-" + parts[1] + "-" + tail[..n]);
      var time := ParseTime(TrimLeft(rest));
      if rest == [] || date.None? || time.None? then None
      else Some((date.value, time.value.0, time.value.1))
  }

  /** A text strptime reads as '%H:%M' starts with a digit and holds no
      whitespace and no '-'. */
  lemma ParseTimeText(s: string)
    requires ParseTime(s).Some?
    ensures s != [] && IsAsciiDigit(s[0])
    ensures forall k :: 0 <= k < |s| ==> !IsSpace(s[k]) && s[k] != '-'
  {
    var parts := Split(s, ':');
    JoinSplit(s, ':');
    assert s == parts[0] + [':'] + parts[1];
    forall k | 0 <= k < |s|
      ensures !IsSpace(s[k]) && s[k] != '-'
    {
      if k < |parts[0]| {
        assert s[k] == parts[0][k];
      } else if k > |parts[0]| {
        assert s[k] == parts[1][k - |parts[0]| - 1];
      }
    }
  }

  /** lstrip drops exactly a leading run of whitespace in front of a text
      that does not start with whitespace. */
  lemma {:induction false} TrimLeftRun(ws: string, t: string)
    requires AllSpace(ws) && (t == [] || !IsSpace(t[0]))
    ensures TrimLeft(ws + t) == t
  {
    if ws != [] {
      assert (ws + t)[1..] == ws[1..] + t;
      assert IsSpace(ws[0]);
      TrimLeftRun(ws[1..], t);
    } else {
      assert ws + t == t;
    }
  }

  /** A date strptime reads as '%Y-%m-%d' is its three tokens joined by
      '-', the last a %d token. */
  lemma ParseDateParts(date: string)
    requires ParseDate(date).Some?
    ensures var p := Split(date, '-');
      |p| == 3 && date == p[0] + "-" + p[1] + "-" + p[2] && DayToken(p[2])
  {
    var p := Split(date, '-');
    JoinSplit(date, '-');
    assert Join(p[1..], '-') == p[1] + "-" + p[2];
  }

  /** Three pieces free of '-' joined by '-' split back into themselves. */
  lemma SplitThree(a: string, b: string, u: string)
    requires Free(a, '-') && Free(b, '-') && Free(u, '-')
    ensures Split(a + "-" + b + "-" + u, '-') == [a, b, u]
  {
    assert Join([a, b, u][1..], '-') == b + "-" + u;
    assert Join([a, b, u], '-') == a + "-" + b + "-" + u;
    SplitJoin([a, b, u], '-');
  }

  /** A %d token followed by whitespace and a '%H:%M' text holds no '-',
      and its first whitespace after the first character is where the day
      ends. */
  lemma DayThenTime(d: string, ws: string, time: string)
    requires DayToken(d) && ws != [] && AllSpace(ws) && ParseTime(time).Some?
    ensures Free(d + ws + time, '-')
    ensures SpaceFrom(d + ws + time, 1) == |d|
    ensures (d + ws + time)[..|d|] == d && (d + ws + time)[|d|..] == ws + time
  {
    ParseTimeText(time);
    NoDashJoined(d, ws, time);
    DayEndsAtRun(d, ws, time);
    var u := d + ws + time;
    assert u[..|d|] == d;
    assert u[|d|..] == ws + time;
  }

  lemma NoDashJoined(d: string, ws: string, time: string)
    requires DayToken(d) && AllSpace(ws) && Free(time, '-')
    ensures Free(d + ws + time, '-')
  {
    var u := d + ws + time;
    forall k | 0 <= k < |u|
      ensures u[k] != '-'
    {
      if k < |d| {
        assert u[k] == d[k];
      } else if k < |d| + |ws| {
        assert u[k] == ws[k - |d|];
        assert IsSpace(ws[k - |d|]);
      } else {
        assert u[k] == time[k - |d| - |ws|];
      }
    }
  }

  lemma DayEndsAtRun(d: string, ws: string, time: string)
    requires DayToken(d) && ws != [] && AllSpace(ws)
    ensures SpaceFrom(d + ws + time, 1) == |d|
  {
    var u := d + ws + time;
    assert u[|d|] == ws[0] && IsSpace(ws[0]);
    assert forall k :: 1 <= k < |d| ==> u[k] == d[k] && IsAsciiDigit(d[k]);
  }

  /** A date and a time that read on their own read together, with any
      non-empty run of whitespace between them. */
  lemma ParseDateTimeJoined(date: string, ws: string, time: string)
    requires ParseDate(date).Some? && ParseTime(time).Some?
    requires ws != [] && AllSpace(ws)
    ensures ParseDateTime(date + ws + time) ==
      Some((ParseDate(date).value, ParseTime(time).value.0, ParseTime(time).value.1))
  {
    var p := Split(date, '-');
    ParseDateParts(date);
    DayThenTime(p[2], ws, time);
    var u := p[2] + ws + time;
    assert Free(p[0], '-') && Free(p[1], '-');
    SplitThree(p[0], p[1], u);
    var s := date + ws + time;
    assert s == p[0] + "-" + p[1] + "-" + u;
    assert u == p[2] + (ws + time);
    assert Split(s, '-') == [p[0], p[1], p[2] + (ws + time)];
    ParseTimeText(time);
    TrimLeftRun(ws, time);
    ParseDateTimeOf(s, p[0], p[1], p[2], ws + time);
  }

  /** ParseDateTime on a text whose third '-' piece is a day d followed by
      rest, with the day ending where rest starts. */
  lemma ParseDateTimeOf(s: string, a: string, b: string, d: string, rest: string)
    requires Split(s, '-') == [a, b, d + rest] && d != [] && rest != []
    requires SpaceFrom(d + rest, 1) == |d|
    ensures ParseDateTime(s) ==
      var date := ParseDate(a + "-" + b + "-" + d);
      var time := ParseTime(TrimLeft(rest));
      if date.None? || time.None? then None else Some((date.value, time.value.0, time.value.1))
  {
    var u := d + rest;
    assert u[..|d|] == d && u[|d|..] == rest;
  }

  /** strptime on the joined text is more lenient than on its parts: a
      time with a space in front does not read as '%H:%M' on its own, but
      joined to a date by a space the two spaces form one run and it
      does. */
  lemma ParseDateTimeLenient(date: string, time: string)
    requires ParseDate(date).Some? && ParseTime(time).Some?
    ensures ParseTime(" " + time).None?
    ensures ParseDateTime(date + " " + (" " + time)) ==
      Some((ParseDate(date).value, ParseTime(time).value.0, ParseTime(time).value.1))
  {
    LeadingSpaceNoTime(" " + time);
    assert AllSpace("  ");
    ParseDateTimeJoined(date, "  ", time);
    assert date + "  " + time == date + " " + (" " + time);
  }

  lemma LeadingSpaceNoTime(s: string)
    requires s != [] && IsSpace(s[0])
    ensures ParseTime(s).None?
  {
    if ParseTime(s).Some? {
      ParseTimeText(s);
    }
  }

}
