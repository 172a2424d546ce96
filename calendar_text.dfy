/** The Greek texts the calendar code shows: a duration in hours and
    minutes (format_duration_display), the list of offered slots grouped by
    date (format_available_slots_message), and the price and duration lines
    that reschedule_booking rewrites in an event's description. */
module CalendarText {
  import opened Wrappers
  import opened Text
  import opened Dates

  /** A string holds none of the given character (Text.Free), kept under
      concatenation. */
  lemma FreeAppend(a: string, b: string, c: char)
    requires Free(a, c) && Free(b, c)
    ensures Free(a + b, c)
  {
    forall j | 0 <= j < |a + b|
      ensures (a + b)[j] != c
    {
      if j < |a| {
        assert (a + b)[j] == a[j];
      } else {
        assert (a + b)[j] == b[j - |a|];
      }
    }
  }

  // ---------------------------------------------------------------------
  // format_duration_display
  // ---------------------------------------------------------------------

  /** int(x) on a float: truncation toward zero. */
  function Trunc(x: real): (r: int)
    ensures 0.0 <= x ==> 0 <= r && r as real <= x < r as real + 1.0
    ensures x < 0.0 ==> r <= 0 && r as real - 1.0 < x <= r as real
  {
    if x >= 0.0 then x.Floor else -((-x).Floor)
  }

  /** The phrase for a whole number of minutes, split by floor division
      into hours and the remaining minutes: the minutes alone when there is
      no whole hour, the hours alone on the hour, both joined by "και"
      otherwise, with "ώρα" in the singular for exactly one hour. The words
      (PhraseWords) are separated by single spaces. Every phrase reads back
      as the number of minutes it was made from. */
  function MinutesText(total: int): (r: string)
    ensures ReadDuration(r) == Some(total)
  {
    SplitJoin(PhraseWords(total), ' ');
    ReadPhraseWords(total);
    Join(PhraseWords(total), ' ')
  }

  /** format_duration_display: the phrase for the duration's minutes,
      truncated toward zero; it reads back as those whole minutes. */
  function DurationDisplay(hours: real): (r: string)
    ensures ReadDuration(r) == Some(Trunc(hours * 60.0))
  {
    MinutesText(Trunc(hours * 60.0))
  }

  /** A non-empty run of ASCII digits. */
  predicate Digits(s: string)
  {
    s != [] && forall k :: 0 <= k < |s| ==> IsAsciiDigit(s[k])
  }

  /** int(s) for an optionally negative run of ASCII digits. */
  function ReadInt(s: string): Option<int>
  {
    if s != [] && s[0] == '-' then
      if Digits(s[1..]) then Some(-(DigitsValue(s[1..]) as int)) else None
    else if Digits(s) then Some(DigitsValue(s))
    else None
  }

  /** Reading back a rendered integer gives the integer. */
  lemma ReadIntToString(n: int)
    ensures ReadInt(IntToString(n)) == Some(n)
  {
    if n < 0 {
      ReadNegative(-n);
    } else {
      ReadNatural(n);
    }
  }

  lemma ReadNatural(n: nat)
    ensures ReadInt(NatToString(n)) == Some(n)
  {
    var t := NatToString(n);
    assert t[0] != '-';
    assert Digits(t);
    NatToStringValue(n);
  }

  lemma ReadNegative(n: nat)
    requires n > 0
    ensures ReadInt("-" + NatToString(n)) == Some(-(n as int))
  {
    var t := NatToString(n);
    assert ("-" + t)[1..] == t;
    assert Digits(t);
    NatToStringValue(n);
  }

  /** A rendered integer holds no space and no line break. */
  lemma IntToStringFree(n: int, c: char)
    requires c == ' ' || c == '\n'
    ensures Free(IntToString(n), c)
  {
    if n < 0 {
      FreeAppend("-", NatToString(-n), c);
    }
  }

  /** Reads a duration phrase back into a number of minutes: the reference
      the phrases are checked against. */
  function ReadDuration(s: string): Option<int>
  {
    ReadWords(Split(s, ' '))
  }

  function ReadWords(w: seq<string>): Option<int>
  {
    if |w| == 2 then
      if w[1] == "λεπτά" then ReadInt(w[0])
      else match ReadHours(w[0], w[1])
        case Some(h) => Some(h * 60)
        case None => None
    else if |w| == 5 && w[2] == "και" && w[4] == "λεπτά" then
      match ReadHours(w[0], w[1])
      case None => None
      case Some(h) =>
        match ReadInt(w[3])
        case Some(m) => Some(h * 60 + m)
        case None => None
    else None
  }

  /** A count of hours with its unit: "1 ώρα" in the singular, any other
      count with "ώρες". */
  function ReadHours(n: string, unit: string): Option<int>
  {
    if unit == "ώρα" then (if n == "1" then Some(1) else None)
    else if unit == "ώρες" then ReadInt(n)
    else None
  }

  /** The words of a phrase, none of them holding a space. */
  function PhraseWords(total: int): (w: seq<string>)
    ensures |w| >= 1 && forall k :: 0 <= k < |w| ==> Free(w[k], ' ')
  {
    var h := total / 60;
    var m := total % 60;
    IntToStringFree(h, ' ');
    IntToStringFree(m, ' ');
    var hours := [IntToString(h), if h == 1 then "ώρα" else "ώρες"];
    var minutes := [IntToString(m), "λεπτά"];
    if h == 0 then minutes else if m == 0 then hours else hours + ["και"] + minutes
  }

  /** The words of a phrase read back as its number of minutes. */
  lemma ReadPhraseWords(total: int)
    ensures ReadWords(PhraseWords(total)) == Some(total)
  {
    var h := total / 60;
    var m := total % 60;
    assert total == h * 60 + m;
    var unit := if h == 1 then "ώρα" else "ώρες";
    var w := PhraseWords(total);
    if h == 0 {
      assert w == [IntToString(m), "λεπτά"];
      ReadMinutesWords(m);
    } else if m == 0 {
      assert w == [IntToString(h), unit];
      ReadHoursWords(h, unit);
    } else {
      assert w == [IntToString(h), unit] + ["και"] + [IntToString(m), "λεπτά"];
      assert w == [IntToString(h), unit, "και", IntToString(m), "λεπτά"];
      ReadHoursMinutesWords(h, unit, m);
    }
  }

  lemma ReadMinutesWords(m: int)
    ensures ReadWords([IntToString(m), "λεπτά"]) == Some(m)
  {
    ReadIntToString(m);
  }

  lemma ReadUnit(h: int, unit: string)
    requires unit == if h == 1 then "ώρα" else "ώρες"
    ensures ReadHours(IntToString(h), unit) == Some(h)
    ensures unit != "λεπτά"
  {
    if h == 1 {
      assert IntToString(h) == "1";
    } else {
      ReadIntToString(h);
    }
  }

  lemma ReadHoursWords(h: int, unit: string)
    requires unit == if h == 1 then "ώρα" else "ώρες"
    ensures ReadWords([IntToString(h), unit]) == Some(h * 60)
  {
    ReadUnit(h, unit);
  }

  lemma ReadHoursMinutesWords(h: int, unit: string, m: int)
    requires unit == if h == 1 then "ώρα" else "ώρες"
    ensures ReadWords([IntToString(h), unit, "και", IntToString(m), "λεπτά"]) == Some(h * 60 + m)
  {
    ReadUnit(h, unit);
    ReadIntToString(m);
  }

  /** Different numbers of minutes are shown as different phrases. */
  lemma MinutesTextInjective(a: int, b: int)
    requires MinutesText(a) == MinutesText(b)
    ensures a == b
  {
    assert ReadDuration(MinutesText(a)) == Some(a);
  }

  /** Joining pieces free of a character with another separator leaves
      the character out. */
  lemma {:induction false} JoinFree(parts: seq<string>, sep: char, c: char)
    requires sep != c
    requires forall k :: 0 <= k < |parts| ==> Free(parts[k], c)
    ensures Free(Join(parts, sep), c)
  {
    if |parts| > 1 {
      JoinFree(parts[1..], sep, c);
      FreeAppend(parts[0], [sep], c);
      FreeAppend(parts[0] + [sep], Join(parts[1..], sep), c);
    }
  }

  /** A duration phrase is a single line. */
  lemma MinutesTextOneLine(total: int)
    ensures Free(MinutesText(total), '\n')
  {
    IntToStringFree(total / 60, '\n');
    IntToStringFree(total % 60, '\n');
    JoinFree(PhraseWords(total), ' ', '\n');
  }

  // ---------------------------------------------------------------------
  // format_available_slots_message
  // ---------------------------------------------------------------------

  /** One offered slot as the message receives it: its 'date' (YYYY-MM-DD)
      and 'start_time' (HH:MM) strings. */
  datatype SlotEntry = SlotEntry(date: string, startTime: string)

  const NoSlotsMessage := "Δυστυχώς δεν υπάρχουν διαθέσιμες ώρες για τις ημερομηνίες που ζητήσατε."
  const SlotsTitle := "Διαθέσιμες ώρες:"
  const MaxTimesShown: nat := 3

  /** Greek weekday names, Monday first, as date.weekday() numbers them. */
  function DayName(w: int): string
    requires 0 <= w < 7
  {
    ["Δευτέρα", "Τρίτη", "Τετάρτη", "Πέμπτη", "Παρασκευή", "Σάββατο", "Κυριακή"][w]
  }

  /** Greek month names in the genitive, January first. */
  function MonthName(m: int): string
    requires 1 <= m <= 12
  {
    ["Ιανουαρίου", "Φεβρουαρίου", "Μαρτίου", "Απριλίου", "Μαΐου", "Ιουνίου",
     "Ιουλίου", "Αυγούστου", "Σεπτεμβρίου", "Οκτωβρίου", "Νοεμβρίου", "Δεκεμβρίου"][m - 1]
  }

  predicate Distinct(ds: seq<string>)
  {
    forall i, j :: 0 <= i < j < |ds| ==> ds[i] != ds[j]
  }

  /** The keys of the dict the message groups by: each date once, in the
      order of its first slot. */
  function GroupDates(entries: seq<SlotEntry>): (r: seq<string>)
    ensures Distinct(r)
  {
    if entries == [] then []
    else
      var r := GroupDates(entries[..|entries| - 1]);
      var d := entries[|entries| - 1].date;
      if d in r then r else r + [d]
  }

  /** The start times grouped under one date, in slot order. */
  function TimesOn(entries: seq<SlotEntry>, date: string): (r: seq<string>)
    ensures |r| <= |entries|
    ensures r == [] <==> forall k :: 0 <= k < |entries| ==> entries[k].date != date
  {
    if entries == [] then []
    else
      var t := TimesOn(entries[..|entries| - 1], date);
      var last := entries[|entries| - 1];
      assert forall k :: 0 <= k < |entries| - 1 ==> entries[..|entries| - 1][k] == entries[k];
      if last.date == date then t + [last.startTime] else t
  }

  /** A date is a group exactly when some slot falls on it. */
  lemma {:induction false} GroupDatesMembers(entries: seq<SlotEntry>, date: string)
    ensures date in GroupDates(entries) <==> TimesOn(entries, date) != []
  {
    if entries != [] {
      GroupDatesMembers(entries[..|entries| - 1], date);
    }
  }

  /** Grouping more slots only appends new dates: the groups of a prefix of
      the slots lead the groups of all of them, which is what first-appearance
      order means. */
  lemma {:induction false} GroupDatesPrefix(entries: seq<SlotEntry>, n: nat)
    requires n <= |entries|
    ensures GroupDates(entries[..n]) <= GroupDates(entries)
    decreases |entries| - n
  {
    if n < |entries| {
      var longer := entries[..n + 1];
      assert longer[..n] == entries[..n];
      assert longer[..|longer| - 1] == entries[..n];
      GroupDatesPrefix(entries, n + 1);
    } else {
      assert entries[..n] == entries;
    }
  }

  /** Total number of start times grouped under the given dates. */
  function GroupedCount(entries: seq<SlotEntry>, dates: seq<string>): nat
  {
    if dates == [] then 0
    else GroupedCount(entries, dates[..|dates| - 1]) + |TimesOn(entries, dates[|dates| - 1])|
  }

  lemma {:induction false} GroupedCountAppend(entries: seq<SlotEntry>, x: SlotEntry, dates: seq<string>)
    requires Distinct(dates)
    ensures GroupedCount(entries + [x], dates)
         == GroupedCount(entries, dates) + (if x.date in dates then 1 else 0)
  {
    if dates != [] {
      var init := dates[..|dates| - 1];
      var d := dates[|dates| - 1];
      assert (entries + [x])[..|entries|] == entries;
      assert Distinct(init);
      GroupedCountAppend(entries, x, init);
      assert x.date in dates <==> x.date in init || x.date == d;
    }
  }

  /** Every slot lands in exactly one group: the groups hold as many start
      times as there are slots. */
  lemma {:induction false} GroupsCoverSlots(entries: seq<SlotEntry>)
    ensures GroupedCount(entries, GroupDates(entries)) == |entries|
  {
    if entries != [] {
      var init := entries[..|entries| - 1];
      var x := entries[|entries| - 1];
      var g := GroupDates(init);
      assert init + [x] == entries;
      GroupsCoverSlots(init);
      GroupedCountAppend(init, x, g);
      if x.date !in g {
        GroupDatesMembers(init, x.date);
        assert GroupedCount(entries, g + [x.date]) == GroupedCount(entries, g) + |TimesOn(entries, x.date)|;
        assert (g + [x.date])[..|g|] == g;
      }
    }
  }

  /** times[:3]: the start times a date's line lists. */
  function Shown(times: seq<string>): (r: seq<string>)
    ensures |r| <= MaxTimesShown && r <= times
    ensures |times| <= MaxTimesShown ==> r == times
  {
    if |times| <= MaxTimesShown then times else times[..MaxTimesShown]
  }

  /** The N of "και άλλες N": the start times the line leaves out. */
  function Hidden(times: seq<string>): (n: nat)
    ensures |Shown(times)| + n == |times|
    ensures n > 0 <==> |times| > MaxTimesShown
  {
    if |times| > MaxTimesShown then |times| - MaxTimesShown else 0
  }

  /** sep.join(parts) for a separator of any length. */
  function JoinWith(parts: seq<string>, sep: string): string
  {
    if parts == [] then ""
    else if |parts| == 1 then parts[0]
    else parts[0] + sep + JoinWith(parts[1..], sep)
  }

  /** What the message says about one date: the parsed date, the start
      times it lists and how many it leaves out. */
  datatype DayLine = DayLine(date: Date, shown: seq<string>, more: nat)

  /** strptime applied to each group's date. */
  function ParseDates(dates: seq<string>): (r: seq<Option<Date>>)
    ensures |r| == |dates|
  {
    seq(|dates|, k requires 0 <= k < |dates| => ParseDate(dates[k]))
  }

  /** The lines of the given dates, in order, from their parsed forms; None
      once a date failed to parse. */
  function DayLines(entries: seq<SlotEntry>, dates: seq<string>, parsed: seq<Option<Date>>): Option<seq<DayLine>>
    requires |parsed| == |dates|
  {
    if dates == [] then Some([])
    else
      var n := |dates| - 1;
      match DayLines(entries, dates[..n], parsed[..n])
      case None => None
      case Some(ls) =>
        match parsed[n]
        case None => None
        case Some(dt) =>
          var times := TimesOn(entries, dates[n]);
          Some(ls + [DayLine(dt, Shown(times), Hidden(times))])
  }

  /** The lines are produced exactly when every date parses; then there is
      one line per date, in the same order, for the date parsed. */
  lemma {:induction false} DayLinesDefined(entries: seq<SlotEntry>, dates: seq<string>, parsed: seq<Option<Date>>)
    requires |parsed| == |dates|
    ensures DayLines(entries, dates, parsed).Some? <==> forall k :: 0 <= k < |parsed| ==> parsed[k].Some?
    ensures DayLines(entries, dates, parsed).Some? ==>
      var ls := DayLines(entries, dates, parsed).value;
      |ls| == |dates| && forall i :: 0 <= i < |ls| ==> Some(ls[i].date) == parsed[i]
  {
    if dates != [] {
      var n := |dates| - 1;
      DayLinesDefined(entries, dates[..n], parsed[..n]);
      assert forall k :: 0 <= k < n ==> parsed[..n][k] == parsed[k];
    }
  }

  predicate AllValid(ls: seq<DayLine>)
  {
    forall i :: 0 <= i < |ls| ==> Valid(ls[i].date)
  }

  /** Every line of the message is for a valid date. */
  lemma DayLinesValid(entries: seq<SlotEntry>, dates: seq<string>)
    requires DayLines(entries, dates, ParseDates(dates)).Some?
    ensures AllValid(DayLines(entries, dates, ParseDates(dates)).value)
  {
    var parsed := ParseDates(dates);
    DayLinesDefined(entries, dates, parsed);
    var ls := DayLines(entries, dates, parsed).value;
    forall i | 0 <= i < |ls|
      ensures Valid(ls[i].date)
    {
      assert parsed[i] == ParseDate(dates[i]);
    }
  }

  /** Listed and left-out start times over all lines. */
  function Mentioned(ls: seq<DayLine>): nat
  {
    if ls == [] then 0 else Mentioned(ls[..|ls| - 1]) + |ls[|ls| - 1].shown| + ls[|ls| - 1].more
  }

  lemma {:induction false} DayLinesMention(entries: seq<SlotEntry>, dates: seq<string>, parsed: seq<Option<Date>>)
    requires |parsed| == |dates| && DayLines(entries, dates, parsed).Some?
    ensures Mentioned(DayLines(entries, dates, parsed).value) == GroupedCount(entries, dates)
  {
    if dates != [] {
      var n := |dates| - 1;
      DayLinesMention(entries, dates[..n], parsed[..n]);
      var ls := DayLines(entries, dates, parsed).value;
      assert ls[..|ls| - 1] == DayLines(entries, dates[..n], parsed[..n]).value;
    }
  }

  /** No slot is lost: every slot is either listed under its date or counted
      in that date's "και άλλες N". */
  lemma EverySlotMentioned(entries: seq<SlotEntry>, parsed: seq<Option<Date>>)
    requires |parsed| == |GroupDates(entries)|
    requires DayLines(entries, GroupDates(entries), parsed).Some?
    ensures Mentioned(DayLines(entries, GroupDates(entries), parsed).value) == |entries|
  {
    DayLinesMention(entries, GroupDates(entries), parsed);
    GroupsCoverSlots(entries);
  }

  /** The text of one line: the Greek weekday, the day and the month, then
      the listed start times and how many more there are. */
  function LineText(l: DayLine): string
    requires Valid(l.date)
  {
    var more := if l.more > 0 then " και άλλες " + NatToString(l.more) else "";
    "📅 " + DayName(Weekday(l.date)) + ", " + NatToString(l.date.day) + " " + MonthName(l.date.month) + ":\n"
    + "   ⏰ " + JoinWith(l.shown, ", ") + more + "\n\n"
  }

  /** The texts of the lines, one after the other. */
  function LinesText(ls: seq<DayLine>): string
    requires AllValid(ls)
  {
    if ls == [] then "" else LinesText(ls[..|ls| - 1]) + LineText(ls[|ls| - 1])
  }

  /** format_available_slots_message; None where it raises ValueError on a
      date strptime rejects. No slots give the apology; a list of slots
      gives a message that opens with the title. */
  function SlotsMessage(entries: seq<SlotEntry>): (r: Option<string>)
    ensures entries == [] ==> r == Some(NoSlotsMessage)
    ensures entries != [] && r.Some? ==> StartsWith(r.value, SlotsTitle)
  {
    if entries == [] then Some(NoSlotsMessage)
    else
      match Blocks(entries, GroupDates(entries))
      case None => None
      case Some(b) =>
        StripKeepsTitle(b);
        Some(Strip(SlotsTitle + "\n\n" + b))
  }

  /** The blocks of the message, one per date in the given order; None when
      a date does not parse. */
  function Blocks(entries: seq<SlotEntry>, dates: seq<string>): Option<string>
  {
    var lines := DayLines(entries, dates, ParseDates(dates));
    if lines.None? then None
    else
      DayLinesValid(entries, dates);
      Some(LinesText(lines.value))
  }

  /** The message is produced exactly when every slot's date parses. */
  lemma SlotsMessageDefined(entries: seq<SlotEntry>)
    ensures SlotsMessage(entries).Some?
        <==> forall k :: 0 <= k < |entries| ==> ParseDate(entries[k].date).Some?
  {
    var g := GroupDates(entries);
    var parsed := ParseDates(g);
    DayLinesDefined(entries, g, parsed);
    if entries != [] {
      if forall k :: 0 <= k < |entries| ==> ParseDate(entries[k].date).Some? {
        forall i | 0 <= i < |g|
          ensures parsed[i].Some?
        {
          GroupDatesMembers(entries, g[i]);
        }
      } else {
        var k :| 0 <= k < |entries| && ParseDate(entries[k].date).None?;
        GroupDatesMembers(entries, entries[k].date);
        var i :| 0 <= i < |g| && g[i] == entries[k].date;
        assert parsed[i].None?;
      }
    }
  }

  /** Stripping the titled text keeps the title in front. */
  lemma StripKeepsTitle(b: string)
    ensures StartsWith(Strip(SlotsTitle + "\n\n" + b), SlotsTitle)
  {
    var s := SlotsTitle + "\n\n" + b;
    assert s[0] == SlotsTitle[0];
    assert TrimLeft(s) == s;
    var r := TrimRight(s);
    var n := |SlotsTitle|;
    assert s[..n] == SlotsTitle;
    assert s[n - 1] == ':';
    TrimRightKeeps(s, n - 1);
    assert r[..n] == s[..n];
  }

  /** One more slot: its date joins the groups if new, and its start time
      joins its date's group and no other. */
  lemma GroupStep(entries: seq<SlotEntry>, i: nat)
    requires i < |entries|
    ensures var g := GroupDates(entries[..i]);
      GroupDates(entries[..i + 1]) == if entries[i].date in g then g else g + [entries[i].date]
    ensures var x := entries[i];
      forall d :: TimesOn(entries[..i + 1], d) == if d == x.date then TimesOn(entries[..i], d) + [x.startTime] else TimesOn(entries[..i], d)
  {
    assert entries[..i + 1][..i] == entries[..i];
  }

  /** The grouping loop of format_available_slots_message: the dict from
      each date to its start times, its keys kept in insertion order. */
  method GroupByDate(entries: seq<SlotEntry>) returns (dates: seq<string>, groups: map<string, seq<string>>)
    ensures dates == GroupDates(entries)
    ensures forall d :: d in groups <==> d in dates
    ensures forall d :: d in groups ==> groups[d] == TimesOn(entries, d)
  {
    dates := [];
    groups := map[];
    for i := 0 to |entries|
      invariant dates == GroupDates(entries[..i])
      invariant forall d :: d in groups <==> d in dates
      invariant forall d :: d in groups ==> groups[d] == TimesOn(entries[..i], d)
    {
      var date := entries[i].date;
      GroupStep(entries, i);
      var times := [];
      if date in groups {
        times := groups[date];
      } else {
        GroupDatesMembers(entries[..i], date);
        dates := dates + [date];
      }
      groups := groups[date := times + [entries[i].startTime]];
    }
    assert entries[..|entries|] == entries;
  }

  lemma DayLinesStep(entries: seq<SlotEntry>, dates: seq<string>, parsed: seq<Option<Date>>, j: nat, lines: seq<DayLine>)
    requires |parsed| == |dates| && j < |dates|
    requires DayLines(entries, dates[..j], parsed[..j]) == Some(lines)
    ensures DayLines(entries, dates[..j + 1], parsed[..j + 1]) ==
      match parsed[j]
      case None => None
      case Some(dt) => Some(lines + [DayLine(dt, Shown(TimesOn(entries, dates[j])), Hidden(TimesOn(entries, dates[j])))])
  {
    assert dates[..j + 1][..j] == dates[..j];
    assert parsed[..j + 1][..j] == parsed[..j];
  }

  lemma LinesTextAppend(lines: seq<DayLine>, line: DayLine)
    requires AllValid(lines) && Valid(line.date)
    ensures AllValid(lines + [line])
    ensures LinesText(lines + [line]) == LinesText(lines) + LineText(line)
  {
    assert (lines + [line])[..|lines|] == lines;
  }

  /** The formatting loop of format_available_slots_message: one block per
      group, in the groups' order, stopping at the first date that does not
      parse. The title the message starts with is added by the caller. */
  method WriteBlocks(entries: seq<SlotEntry>, dates: seq<string>, groups: map<string, seq<string>>)
    returns (blocks: Option<string>)
    requires forall d :: d in dates ==> d in groups && groups[d] == TimesOn(entries, d)
    ensures blocks == Blocks(entries, dates)
  {
    ghost var parsed := ParseDates(dates);
    ghost var lines: seq<DayLine> := [];
    var written := "";
    for j := 0 to |dates|
      invariant DayLines(entries, dates[..j], parsed[..j]) == Some(lines)
      invariant AllValid(lines)
      invariant written == LinesText(lines)
    {
      var date := dates[j];
      DayLinesStep(entries, dates, parsed, j, lines);
      var dt := ParseDate(date);
      assert parsed[j] == dt;
      if dt.None? {
        DayLinesDefined(entries, dates, parsed);
        return None;
      }
      var times := groups[date];
      var line := DayLine(dt.value, Shown(times), Hidden(times));
      LinesTextAppend(lines, line);
      written := written + LineText(line);
      lines := lines + [line];
    }
    assert dates[..|dates|] == dates && parsed[..|parsed|] == parsed;
    assert DayLines(entries, dates, parsed) == Some(lines);
    return Some(written);
  }

  /** format_available_slots_message: group the slots by date, then write
      one block per date; None where a date does not parse. */
  method FormatAvailableSlotsMessage(entries: seq<SlotEntry>) returns (message: Option<string>)
    ensures message == SlotsMessage(entries)
  {
    if entries == [] {
      return Some(NoSlotsMessage);
    }
    var dates, groups := GroupByDate(entries);
    var blocks := WriteBlocks(entries, dates, groups);
    if blocks.None? {
      return None;
    }
    return Some(Strip(SlotsTitle + "\n\n" + blocks.value));
  }

  // ---------------------------------------------------------------------
  // reschedule_booking: the price and duration lines of the description
  // ---------------------------------------------------------------------

  const PriceLabel := "Εκτιμώμενη τιμή:"
  const DurationLabel := "Διάρκεια:"

  predicate IsPriceLine(line: string)
  {
    StartsWith(line, PriceLabel)
  }

  predicate IsDurationLine(line: string)
  {
    StartsWith(line, DurationLabel)
  }

  /** No line is both: the two labels differ in their first letter. */
  lemma LabelsExclusive(line: string)
    ensures !(IsPriceLine(line) && IsDurationLine(line))
  {
    assert PriceLabel[0] != DurationLabel[0];
  }

  /** The price line written for a price, given as Python prints it. */
  function PriceLine(price: string): (r: string)
    ensures IsPriceLine(r)
  {
    PriceLabel + " " + price + "€"
  }

  /** The duration line written for a duration in hours. */
  function DurationLine(hours: real): (r: string)
    ensures IsDurationLine(r)
  {
    DurationLabel + " " + DurationDisplay(hours)
  }

  /** One pass of the loop: a price line becomes the new price line, a
      duration line the new duration line, any other line stays. */
  function RewriteLine(line: string, priceLine: string, durationLine: string): string
  {
    if IsPriceLine(line) then priceLine
    else if IsDurationLine(line) then durationLine
    else line
  }

  function RewriteEach(lines: seq<string>, priceLine: string, durationLine: string): (r: seq<string>)
    ensures |r| == |lines|
    ensures forall k :: 0 <= k < |lines| ==> r[k] == RewriteLine(lines[k], priceLine, durationLine)
  {
    if lines == [] then []
    else RewriteEach(lines[..|lines| - 1], priceLine, durationLine) + [RewriteLine(lines[|lines| - 1], priceLine, durationLine)]
  }

  predicate HasLine(lines: seq<string>, tag: string)
  {
    exists k :: 0 <= k < |lines| && StartsWith(lines[k], tag)
  }

  /** The new lines: every line rewritten, then the price line and the
      duration line appended when the description had none. */
  function RewrittenLines(lines: seq<string>, priceLine: string, durationLine: string): seq<string>
  {
    RewriteEach(lines, priceLine, durationLine)
    + (if HasLine(lines, PriceLabel) then [] else [priceLine])
    + (if HasLine(lines, DurationLabel) then [] else [durationLine])
  }

  /** The description after reschedule_booking: rewritten only when a price
      is given and the event has a description. A rewritten description,
      read line by line, holds the new price line and a duration line, and
      every price line in it is the new one. */
  function UpdatedDescription(description: Option<string>, price: Option<string>, hours: real): (r: Option<string>)
    ensures r.Some? <==> description.Some?
    ensures price.None? ==> r == description
    ensures price.Some? && description.Some? && Free(price.value, '\n') ==>
      var ls := Split(r.value, '\n');
      HasLine(ls, PriceLabel) && HasLine(ls, DurationLabel)
      && forall k :: 0 <= k < |ls| && IsPriceLine(ls[k]) ==> ls[k] == PriceLine(price.value)
  {
    if price.Some? && description.Some? then
      if Free(price.value, '\n') then
        RewrittenReadsBack(description.value, price.value, hours);
        RewriteMarks(Split(description.value, '\n'), PriceLine(price.value), DurationLine(hours));
        Some(Join(RewrittenLines(Split(description.value, '\n'), PriceLine(price.value), DurationLine(hours)), '\n'))
      else
        Some(Join(RewrittenLines(Split(description.value, '\n'), PriceLine(price.value), DurationLine(hours)), '\n'))
    else description
  }

  /** The rewritten lines hold no line break, so the written description
      splits back into them. */
  lemma RewrittenReadsBack(description: string, price: string, hours: real)
    requires Free(price, '\n')
    ensures var r := RewrittenLines(Split(description, '\n'), PriceLine(price), DurationLine(hours));
      Split(Join(r, '\n'), '\n') == r
  {
    var p := PriceLine(price);
    var d := DurationLine(hours);
    var lines := Split(description, '\n');
    var r := RewrittenLines(lines, p, d);
    PriceLineOneLine(price);
    DurationLineOneLine(hours);
    forall k | 0 <= k < |r|
      ensures Free(r[k], '\n')
    {
      if k < |lines| {
        assert r[k] == RewriteLine(lines[k], p, d);
      }
    }
    SplitJoin(r, '\n');
  }

  /** After the rewrite there is a price line and a duration line, and every
      price or duration line is the new one. */
  lemma RewriteMarks(lines: seq<string>, priceLine: string, durationLine: string)
    requires IsPriceLine(priceLine) && IsDurationLine(durationLine)
    ensures var r := RewrittenLines(lines, priceLine, durationLine);
      && HasLine(r, PriceLabel) && HasLine(r, DurationLabel)
      && (forall k :: 0 <= k < |r| && IsPriceLine(r[k]) ==> r[k] == priceLine)
      && (forall k :: 0 <= k < |r| && IsDurationLine(r[k]) ==> r[k] == durationLine)
  {
    var r := RewrittenLines(lines, priceLine, durationLine);
    var each := RewriteEach(lines, priceLine, durationLine);
    LabelsExclusive(priceLine);
    LabelsExclusive(durationLine);
    forall k | 0 <= k < |r|
      ensures IsPriceLine(r[k]) ==> r[k] == priceLine
      ensures IsDurationLine(r[k]) ==> r[k] == durationLine
    {
      if k < |lines| {
        assert r[k] == each[k];
        LabelsExclusive(lines[k]);
      }
    }
    if HasLine(lines, PriceLabel) {
      var k :| 0 <= k < |lines| && IsPriceLine(lines[k]);
      assert r[k] == priceLine;
    } else {
      assert r[|lines|] == priceLine;
    }
    if HasLine(lines, DurationLabel) {
      var k :| 0 <= k < |lines| && IsDurationLine(lines[k]);
      LabelsExclusive(lines[k]);
      assert r[k] == durationLine;
    } else {
      assert r[|r| - 1] == durationLine;
    }
  }

  /** The lines that are neither price nor duration lines, in order. */
  function Unmarked(lines: seq<string>): seq<string>
  {
    if lines == [] then []
    else
      var last := lines[|lines| - 1];
      Unmarked(lines[..|lines| - 1]) + (if IsPriceLine(last) || IsDurationLine(last) then [] else [last])
  }

  lemma {:induction false} UnmarkedAppend(a: seq<string>, b: seq<string>)
    ensures Unmarked(a + b) == Unmarked(a) + Unmarked(b)
    decreases |b|
  {
    if b != [] {
      var init := b[..|b| - 1];
      assert (a + b)[..|a + b| - 1] == a + init;
      UnmarkedAppend(a, init);
    } else {
      assert a + b == a;
    }
  }

  lemma {:induction false} UnmarkedRewriteEach(lines: seq<string>, priceLine: string, durationLine: string)
    requires IsPriceLine(priceLine) && IsDurationLine(durationLine)
    ensures Unmarked(RewriteEach(lines, priceLine, durationLine)) == Unmarked(lines)
  {
    if lines != [] {
      var init := lines[..|lines| - 1];
      UnmarkedRewriteEach(init, priceLine, durationLine);
      var each := RewriteEach(lines, priceLine, durationLine);
      assert each[..|each| - 1] == RewriteEach(init, priceLine, durationLine);
    }
  }

  /** The rewrite keeps every other line of the description, in order. */
  lemma RewriteKeepsOtherLines(lines: seq<string>, priceLine: string, durationLine: string)
    requires IsPriceLine(priceLine) && IsDurationLine(durationLine)
    ensures Unmarked(RewrittenLines(lines, priceLine, durationLine)) == Unmarked(lines)
  {
    var each := RewriteEach(lines, priceLine, durationLine);
    var p: seq<string> := if HasLine(lines, PriceLabel) then [] else [priceLine];
    var d: seq<string> := if HasLine(lines, DurationLabel) then [] else [durationLine];
    UnmarkedRewriteEach(lines, priceLine, durationLine);
    UnmarkedAppend(each, p);
    UnmarkedAppend(each + p, d);
    assert Unmarked(p) == [] by {
      if p != [] {
        assert p[..0] == [];
      }
    }
    assert Unmarked(d) == [] by {
      if d != [] {
        assert d[..0] == [];
      }
    }
  }

  /** Lines already carrying the new price and duration are left alone. */
  lemma RewriteFixed(lines: seq<string>, priceLine: string, durationLine: string)
    requires IsPriceLine(priceLine) && IsDurationLine(durationLine)
    requires HasLine(lines, PriceLabel) && HasLine(lines, DurationLabel)
    requires forall k :: 0 <= k < |lines| && IsPriceLine(lines[k]) ==> lines[k] == priceLine
    requires forall k :: 0 <= k < |lines| && IsDurationLine(lines[k]) ==> lines[k] == durationLine
    ensures RewrittenLines(lines, priceLine, durationLine) == lines
  {
    var each := RewriteEach(lines, priceLine, durationLine);
    assert each == lines;
  }

  /** The price line for a one-line price is a single line. */
  lemma PriceLineOneLine(price: string)
    requires Free(price, '\n')
    ensures Free(PriceLine(price), '\n')
  {
    FreeAppend(PriceLabel, " ", '\n');
    FreeAppend(PriceLabel + " ", price, '\n');
    FreeAppend(PriceLabel + " " + price, "€", '\n');
  }

  lemma DurationLineOneLine(hours: real)
    ensures Free(DurationLine(hours), '\n')
  {
    MinutesTextOneLine(Trunc(hours * 60.0));
    FreeAppend(DurationLabel, " ", '\n');
    FreeAppend(DurationLabel + " ", DurationDisplay(hours), '\n');
  }

  /** Rescheduling twice with the same price and duration writes the same
      description as rescheduling once. */
  lemma UpdatedDescriptionIdempotent(description: Option<string>, price: Option<string>, hours: real)
    requires price.Some? ==> Free(price.value, '\n')
    ensures UpdatedDescription(UpdatedDescription(description, price, hours), price, hours)
         == UpdatedDescription(description, price, hours)
  {
    if price.Some? && description.Some? {
      var p := PriceLine(price.value);
      var d := DurationLine(hours);
      var lines := Split(description.value, '\n');
      var r := RewrittenLines(lines, p, d);
      RewrittenReadsBack(description.value, price.value, hours);
      RewriteMarks(lines, p, d);
      RewriteFixed(r, p, d);
    }
  }

  /** One more line: its rewriting is appended, and it adds to the labels
      seen only its own. */
  lemma RewriteStep(lines: seq<string>, i: nat, priceLine: string, durationLine: string)
    requires i < |lines|
    ensures RewriteEach(lines[..i + 1], priceLine, durationLine)
         == RewriteEach(lines[..i], priceLine, durationLine) + [RewriteLine(lines[i], priceLine, durationLine)]
    ensures HasLine(lines[..i + 1], PriceLabel) <==> HasLine(lines[..i], PriceLabel) || IsPriceLine(lines[i])
    ensures HasLine(lines[..i + 1], DurationLabel) <==> HasLine(lines[..i], DurationLabel) || IsDurationLine(lines[i])
    ensures !(IsPriceLine(lines[i]) && IsDurationLine(lines[i]))
  {
    var next := lines[..i + 1];
    assert next[..i] == lines[..i];
    assert next[i] == lines[i];
    LabelsExclusive(lines[i]);
  }

  /** The loop of the description update: rewrite the lines one by one,
      remembering whether a price and a duration line were seen, then add
      the missing ones. */
  method RewriteLines(lines: seq<string>, priceLine: string, durationLine: string)
    returns (newLines: seq<string>)
    ensures newLines == RewrittenLines(lines, priceLine, durationLine)
  {
    newLines := [];
    var priceAdded, durationAdded := false, false;
    for i := 0 to |lines|
      invariant newLines == RewriteEach(lines[..i], priceLine, durationLine)
      invariant priceAdded <==> HasLine(lines[..i], PriceLabel)
      invariant durationAdded <==> HasLine(lines[..i], DurationLabel)
    {
      var line := lines[i];
      RewriteStep(lines, i, priceLine, durationLine);
      if IsPriceLine(line) {
        newLines := newLines + [priceLine];
        priceAdded := true;
      } else if IsDurationLine(line) {
        newLines := newLines + [durationLine];
        durationAdded := true;
      } else {
        newLines := newLines + [line];
      }
    }
    assert lines[..|lines|] == lines;
    ghost var each := newLines;
    if !priceAdded {
      newLines := newLines + [priceLine];
    }
    ghost var withPrice := newLines;
    assert withPrice == each + (if priceAdded then [] else [priceLine]);
    if !durationAdded {
      newLines := newLines + [durationLine];
    }
    assert newLines == withPrice + (if durationAdded then [] else [durationLine]);
  }

  /** The description update of reschedule_booking: only when a price is
      given and the event has a description, split it into lines, rewrite
      them and join them again. */
  method RescheduleDescription(description: Option<string>, price: Option<string>, hours: real)
    returns (updated: Option<string>)
    ensures updated == UpdatedDescription(description, price, hours)
  {
    if price.None? || description.None? {
      return description;
    }
    var newLines := RewriteLines(Split(description.value, '\n'), PriceLine(price.value), DurationLine(hours));
    return Some(Join(newLines, '\n'));
  }
}
