/** check_availability's search over the hourly grid of working hours, the
    advisory holds it writes for the slots it suggests, and the hold
    create_booking releases once a booking is in the calendar.

    A time of day is an integer number of minutes after local midnight; an
    instant is Ordinal(day) * 1440 + minute. Durations are exact rational
    hours. */
module Slots {
  import opened Wrappers
  import Text
  import opened Dates
  import opened Durations
  import KV = KeyValue
  import opened RedisStore

  const OpeningMinute: int := 11 * 60
  const ClosingMinute: int := 20 * 60
  const MinutesPerDay: int := 1440
  const Sunday: int := 6
  const HoldTtlSeconds: int := 30 * 60
  const MaxSuggested: nat := 3

  /** A calendar event as the search reads it: a timed event with its local
      start and end instants, or an all-day event, which the search skips. */
  datatype CalendarEvent = Timed(start: int, end: int) | AllDay

  /** One suggested slot: its date and its start, in minutes after that
      date's midnight. */
  datatype Slot = Slot(day: Date, minute: int)

  /** What one search looks at besides the day: the calendar's events, the
      appointment duration in hours, the asking user_id and the hold store
      with its clock (None when no store is configured). */
  datatype Context = Context(
    events: seq<CalendarEvent>,
    dur: real,
    user: Option<string>,
    holds: Option<(KV.Data, int)>,
    key: (ValidDate, nat) -> string)

  /** The search's lemmas hold for any naming of the hold keys; the search
      check_availability runs names them with HoldKey. */
  type ValidDate = d: Date | Valid(d) witness Date(1, 1, 1)

  function Instant(day: Date, minute: int): int
    requires Valid(day)
  {
    Ordinal(day) * MinutesPerDay + minute
  }

  // ------------------------------------------------------------ hold keys

  /** _slot_hold_key: "hold:" and the slot's start as YYYY-MM-DDTHH:MM. A
      minute count past midnight carries into the following days, as adding
      a timedelta does. */
  function HoldKey(day: ValidDate, minute: nat): (r: string)
    ensures |r| > 5 && r[..5] == "hold:"
  {
    var d := AddDays(day, minute / MinutesPerDay);
    var m := minute % MinutesPerDay;
    "hold:" + FormatDate(d) + "T" + FormatHM(m / 60, m % 60)
  }

  /** Within a day the key is the date, a "T" and the time of day. */
  lemma HoldKeyWithinDay(day: Date, minute: int)
    requires Valid(day) && 0 <= minute < MinutesPerDay
    ensures HoldKey(day, minute) == "hold:" + FormatDate(day) + "T" + FormatHM(minute / 60, minute % 60)
  {
    assert minute / MinutesPerDay == 0 && minute % MinutesPerDay == minute;
  }

  /** Keys laid out as "hold:" + a ten-character date + "T" + a time agree
      only when their parts do. */
  lemma StampParts(date1: string, time1: string, date2: string, time2: string)
    requires |date1| == 10 && |date2| == 10
    requires "hold:" + date1 + "T" + time1 == "hold:" + date2 + "T" + time2
    ensures date1 == date2 && time1 == time2
  {
    var k1, k2 := "hold:" + date1 + "T" + time1, "hold:" + date2 + "T" + time2;
    assert k1[5..15] == date1 && k2[5..15] == date2;
    assert k1[16..] == time1 && k2[16..] == time2;
  }

  lemma FormatDateInjective(d1: Date, d2: Date)
    requires Valid(d1) && Valid(d2) && d1.year < 10000 && d2.year < 10000
    requires FormatDate(d1) == FormatDate(d2)
    ensures d1 == d2
  {
    ParseFormatDate(d1);
    ParseFormatDate(d2);
  }

  lemma FormatHMInjective(m1: int, m2: int)
    requires 0 <= m1 < MinutesPerDay && 0 <= m2 < MinutesPerDay
    requires FormatHM(m1 / 60, m1 % 60) == FormatHM(m2 / 60, m2 % 60)
    ensures m1 == m2
  {
    ParseFormatTime(m1 / 60, m1 % 60);
    ParseFormatTime(m2 / 60, m2 % 60);
  }

  /** Two slot starts within their days share a hold key only when they are
      the same start: the key names the instant. */
  lemma HoldKeyInjective(d1: Date, m1: int, d2: Date, m2: int)
    requires Valid(d1) && Valid(d2) && d1.year < 10000 && d2.year < 10000
    requires 0 <= m1 < MinutesPerDay && 0 <= m2 < MinutesPerDay
    requires HoldKey(d1, m1) == HoldKey(d2, m2)
    ensures d1 == d2 && m1 == m2
  {
    HoldKeyWithinDay(d1, m1);
    HoldKeyWithinDay(d2, m2);
    StampParts(FormatDate(d1), FormatHM(m1 / 60, m1 % 60), FormatDate(d2), FormatHM(m2 / 60, m2 % 60));
    FormatDateInjective(d1, d2);
    FormatHMInjective(m1, m2);
  }

  /** A start 24 hours into a day is the next day's start: same key. */
  lemma HoldKeyNextDay(day: Date, minute: int)
    requires Valid(day) && minute >= 0
    ensures HoldKey(day, minute + MinutesPerDay) == HoldKey(NextDay(day), minute)
  {
    var n := minute / MinutesPerDay;
    assert (minute + MinutesPerDay) / MinutesPerDay == n + 1;
    assert (minute + MinutesPerDay) % MinutesPerDay == minute % MinutesPerDay;
    assert AddDays(day, n + 1) == AddDays(NextDay(day), n);
  }

  // ------------------------------------------------- the day's first start

  /** The first start tried on a day. On the first requested day a non-empty
      preferred time is used when it parses as '%H:%M': before opening it
      becomes 11:00, at or after closing (20:00) the day is skipped (None),
      and otherwise hour and minute are kept. An unparsable preference, a
      later day or no preference starts at opening time. */
  function FirstStart(isFirstDay: bool, preferred: Option<string>): (r: Option<int>)
    ensures r.Some? ==> OpeningMinute <= r.value < ClosingMinute
    ensures !isFirstDay || preferred.None? || preferred.value == [] ==> r == Some(OpeningMinute)
    ensures isFirstDay && preferred.Some? && ParseTime(preferred.value).None? ==> r == Some(OpeningMinute)
    ensures isFirstDay && preferred.Some? && preferred.value != [] && ParseTime(preferred.value).Some? ==>
      var (h, m) := ParseTime(preferred.value).value;
      (h < 11 ==> r == Some(OpeningMinute)) &&
      (h >= 20 ==> r.None?) &&
      (11 <= h < 20 ==> r == Some(h * 60 + m))
  {
    if isFirstDay && preferred.Some? && preferred.value != [] then
      match ParseTime(preferred.value)
      case None => Some(OpeningMinute)
      case Some((h, m)) =>
        if h < 11 then Some(OpeningMinute)
        else if h >= 20 then None
        else Some(h * 60 + m)
    else Some(OpeningMinute)
  }

  // ------------------------------------------------------- the slot filter

  /** A timed event whose start falls on the given local day. */
  predicate OnDay(e: CalendarEvent, day: Date)
    requires Valid(day)
  {
    e.Timed? && Instant(day, 0) <= e.start < Instant(day, MinutesPerDay)
  }

  /** day_events: the timed events starting on the day, in calendar order. */
  function DayEvents(events: seq<CalendarEvent>, day: Date): (r: seq<CalendarEvent>)
    requires Valid(day)
    ensures |r| <= |events|
    ensures forall e :: e in r <==> e in events && OnDay(e, day)
  {
    if events == [] then []
    else
      var last := events[|events| - 1];
      assert forall e :: e in events <==> e in events[..|events| - 1] || e == last;
      DayEvents(events[..|events| - 1], day) + (if OnDay(last, day) then [last] else [])
  }

  /** The event overlaps the slot [slotStart, slotStart + dur hours): it
      neither ends by the slot's start nor starts at or after its end. */
  predicate Overlaps(e: CalendarEvent, slotStart: int, dur: real)
    ensures Overlaps(e, slotStart, dur) ==> e.Timed? && slotStart < e.end
    ensures e.Timed? && e.start <= slotStart < e.end && dur > 0.0 ==> Overlaps(e, slotStart, dur)
  {
    e.Timed? && !(e.end <= slotStart || e.start as real >= slotStart as real + dur * 60.0)
  }

  /** overlapping_count: how many of the events overlap the slot. */
  function OverlapCount(events: seq<CalendarEvent>, slotStart: int, dur: real): (n: nat)
    ensures n <= |events|
    ensures n == 0 <==> forall k :: 0 <= k < |events| ==> !Overlaps(events[k], slotStart, dur)
  {
    if events == [] then 0
    else
      OverlapCount(events[..|events| - 1], slotStart, dur)
        + (if Overlaps(events[|events| - 1], slotStart, dur) then 1 else 0)
  }

  /** str(user_id): an absent user id reads as "None". */
  function UserText(user: Option<string>): string
  {
    if user.None? then "None" else user.value
  }

  /** What the hold lookup reads: the key's value when a store is
      configured, nothing otherwise. */
  function Holder(ctx: Context, key: string): Option<KV.Value>
  {
    if ctx.holds.None? then None else KV.Get(ctx.holds.value.0, key, ctx.holds.value.1)
  }

  /** A non-empty holder other than the asking user blocks the slot; the
      user's own hold does not. */
  predicate HeldByOther(holder: Option<KV.Value>, user: Option<string>)
    ensures HeldByOther(holder, user) ==> holder.Some?
    ensures holder == Some(KV.Text(UserText(user))) ==> !HeldByOther(holder, user)
  {
    holder.Some? && holder.value.Text? && holder.value.s != [] && holder.value.s != UserText(user)
  }

  /** The appointment starting at minute ends by closing time. */
  predicate Fits(minute: int, dur: real)
  {
    minute as real + dur * 60.0 <= ClosingMinute as real
  }

  /** The last start that still fits. */
  function LastStart(dur: real): (r: int)
    ensures Fits(r, dur) && !Fits(r + 1, dur)
  {
    (ClosingMinute as real - dur * 60.0).Floor
  }

  lemma FitsBelowLastStart(minute: int, dur: real)
    ensures Fits(minute, dur) <==> minute <= LastStart(dur)
  {
  }

  /** The slot is offered: fewer than two of the day's events overlap it and
      nobody else holds it. */
  predicate Offered(day: Date, minute: int, ctx: Context)
    requires Valid(day) && minute >= 0
    ensures ctx.holds.None? && |DayEvents(ctx.events, day)| < 2 ==> Offered(day, minute, ctx)
  {
    OverlapCount(DayEvents(ctx.events, day), Instant(day, minute), ctx.dur) < 2
    && !HeldByOther(Holder(ctx, ctx.key(day, minute)), ctx.user)
  }

  // --------------------------------------------------------- the search

  function SlotMeasure(minute: int, dur: real): nat
  {
    if minute <= LastStart(dur) then LastStart(dur) + 1 - minute else 0
  }

  /** The inner loop: the offered starts minute, minute + 60, ... that fit
      before closing. */
  function SlotsFrom(day: Date, minute: int, ctx: Context): (r: seq<Slot>)
    requires Valid(day) && minute >= 0
    ensures forall s :: s in r ==> s.day == day && minute <= s.minute && Fits(s.minute, ctx.dur)
    decreases SlotMeasure(minute, ctx.dur)
  {
    if !Fits(minute, ctx.dur) then []
    else
      FitsBelowLastStart(minute, ctx.dur);
      (if Offered(day, minute, ctx) then [Slot(day, minute)] else [])
        + SlotsFrom(day, minute + 60, ctx)
  }

  /** One pass of the outer loop: nothing on a Sunday or on a first day the
      preference skips, the hourly grid from the first start otherwise. */
  function DaySlots(day: Date, isFirstDay: bool, preferred: Option<string>, ctx: Context): (r: seq<Slot>)
    requires Valid(day)
    ensures Weekday(day) == Sunday ==> r == []
    ensures forall s :: s in r ==> s.day == day && OpeningMinute <= s.minute && Fits(s.minute, ctx.dur)
  {
    if Weekday(day) == Sunday then []
    else match FirstStart(isFirstDay, preferred)
      case None => []
      case Some(first) => SlotsFrom(day, first, ctx)
  }

  function DayMeasure(day: Date, end: Date): nat
    requires Valid(day) && Valid(end)
  {
    if Ordinal(day) <= Ordinal(end) then Ordinal(end) + 1 - Ordinal(day) else 0
  }

  /** The outer loop from day to end, both included: every offered slot, in
      the order the loops meet them. */
  function AvailableFrom(day: Date, start: Date, end: Date, preferred: Option<string>, ctx: Context): (r: seq<Slot>)
    requires Valid(day) && Valid(end)
    ensures forall s :: s in r ==> Valid(s.day) && Ordinal(day) <= Ordinal(s.day) <= Ordinal(end)
    decreases DayMeasure(day, end)
  {
    if Ordinal(day) > Ordinal(end) then []
    else
      OrdinalNextDay(day);
      DaySlots(day, day == start, preferred, ctx) + AvailableFrom(NextDay(day), start, end, preferred, ctx)
  }

  /** available_slots[:3]. */
  function FirstSuggested(available: seq<Slot>): (r: seq<Slot>)
    ensures |r| == if |available| < MaxSuggested then |available| else MaxSuggested
    ensures r == available[..|r|]
  {
    if |available| <= MaxSuggested then available else available[..MaxSuggested]
  }

  /** Every slot has a valid date and starts at or after opening time. */
  predicate WellPlaced(slots: seq<Slot>)
  {
    forall k :: 0 <= k < |slots| ==> Valid(slots[k].day) && slots[k].minute >= OpeningMinute
  }

  lemma PrefixWellPlaced(slots: seq<Slot>, n: nat)
    requires n <= |slots| && WellPlaced(slots)
    ensures WellPlaced(slots[..n])
  {
    assert forall k :: 0 <= k < n ==> slots[..n][k] == slots[k];
  }

  /** What check_availability returns for a successful calendar listing. */
  function Suggested(start: Date, end: Date, preferred: Option<string>, ctx: Context): (r: seq<Slot>)
    requires Valid(start) && Valid(end)
    ensures WellPlaced(r)
  {
    var all := AvailableFrom(start, start, end, preferred, ctx);
    AvailableValid(start, start, end, preferred, ctx);
    var r := FirstSuggested(all);
    PrefixWellPlaced(all, |r|);
    r
  }

  // --------------------------------------------- what the search finds

  /** The start lies on the hourly grid from the day's first start. */
  predicate OnGrid(minute: int, first: Option<int>)
  {
    first.Some? && first.value <= minute && (minute - first.value) % 60 == 0
  }

  /** Everything that makes s a slot the search offers, stated without the
      loops: a day in range that is not a Sunday, a start on that day's grid
      that fits before closing, and the overlap and hold filters. */
  predicate Candidate(s: Slot, start: Date, end: Date, preferred: Option<string>, ctx: Context)
    requires Valid(end)
  {
    Valid(s.day) && Ordinal(s.day) <= Ordinal(end) && Weekday(s.day) != Sunday
    && OnGrid(s.minute, FirstStart(s.day == start, preferred))
    && Fits(s.minute, ctx.dur) && Offered(s.day, s.minute, ctx)
  }

  /** A grid from first is its first start and the grid an hour later. */
  lemma GridStep(minute: int, first: int)
    ensures OnGrid(minute, Some(first)) <==> minute == first || OnGrid(minute, Some(first + 60))
  {
    if first + 60 <= minute {
      assert (minute - first) % 60 == (minute - (first + 60)) % 60;
    }
  }

  /** The inner loop offers exactly the grid starts that fit and pass the
      filters. */
  lemma {:induction false} SlotsFromMembers(day: Date, minute: int, ctx: Context, s: Slot)
    requires Valid(day) && minute >= 0
    ensures s in SlotsFrom(day, minute, ctx) <==>
      s.day == day && OnGrid(s.minute, Some(minute)) && Fits(s.minute, ctx.dur) && Offered(day, s.minute, ctx)
    decreases SlotMeasure(minute, ctx.dur)
  {
    GridStep(s.minute, minute);
    if Fits(minute, ctx.dur) {
      FitsBelowLastStart(minute, ctx.dur);
      SlotsFromMembers(day, minute + 60, ctx, s);
    } else if OnGrid(s.minute, Some(minute)) {
      assert !Fits(s.minute, ctx.dur);
    }
  }

  lemma DaySlotsMembers(day: Date, isFirstDay: bool, preferred: Option<string>, ctx: Context, s: Slot)
    requires Valid(day)
    ensures s in DaySlots(day, isFirstDay, preferred, ctx) <==>
      s.day == day && Weekday(day) != Sunday && OnGrid(s.minute, FirstStart(isFirstDay, preferred))
      && Fits(s.minute, ctx.dur) && Offered(day, s.minute, ctx)
  {
    var first := FirstStart(isFirstDay, preferred);
    if Weekday(day) != Sunday && first.Some? {
      SlotsFromMembers(day, first.value, ctx, s);
    }
  }

  /** The search misses nothing and invents nothing: from any day on, it
      offers exactly the candidates dated that day or later. */
  lemma {:induction false} AvailableFromMembers(day: Date, start: Date, end: Date, preferred: Option<string>, ctx: Context, s: Slot)
    requires Valid(day) && Valid(end)
    ensures s in AvailableFrom(day, start, end, preferred, ctx) <==>
      Valid(s.day) && Ordinal(day) <= Ordinal(s.day) && Candidate(s, start, end, preferred, ctx)
    decreases DayMeasure(day, end)
  {
    if Ordinal(day) <= Ordinal(end) {
      OrdinalNextDay(day);
      DaySlotsMembers(day, day == start, preferred, ctx, s);
      AvailableFromMembers(NextDay(day), start, end, preferred, ctx, s);
      if Valid(s.day) && Ordinal(s.day) == Ordinal(day) {
        OrdinalInjective(s.day, day);
      }
    }
  }

  /** Every slot the search offers has a valid date and starts at or after
      opening time. */
  lemma AvailableValid(day: Date, start: Date, end: Date, preferred: Option<string>, ctx: Context)
    requires Valid(day) && Valid(end)
    ensures WellPlaced(AvailableFrom(day, start, end, preferred, ctx))
  {
    var r := AvailableFrom(day, start, end, preferred, ctx);
    forall k | 0 <= k < |r|
      ensures Valid(r[k].day) && r[k].minute >= OpeningMinute
    {
      assert r[k] in r;
      AvailableFromMembers(day, start, end, preferred, ctx, r[k]);
    }
  }

  /** check_availability's slots are exactly the candidates between the two
      requested dates, before the cut to three. */
  lemma SearchFindsCandidates(start: Date, end: Date, preferred: Option<string>, ctx: Context, s: Slot)
    requires Valid(start) && Valid(end)
    ensures s in AvailableFrom(start, start, end, preferred, ctx) <==>
      Valid(s.day) && Ordinal(start) <= Ordinal(s.day) && Candidate(s, start, end, preferred, ctx)
  {
    AvailableFromMembers(start, start, end, preferred, ctx, s);
  }

  /** a comes before b: an earlier day, or the same day and an earlier
      start. */
  predicate Before(a: Slot, b: Slot)
  {
    Valid(a.day) && Valid(b.day)
    && (Ordinal(a.day) < Ordinal(b.day) || (a.day == b.day && a.minute < b.minute))
  }

  predicate Chronological(ss: seq<Slot>)
  {
    forall i, j :: 0 <= i < j < |ss| ==> Before(ss[i], ss[j])
  }

  lemma ChronologicalAppend(a: seq<Slot>, b: seq<Slot>)
    requires Chronological(a) && Chronological(b)
    requires forall x, y :: x in a && y in b ==> Before(x, y)
    ensures Chronological(a + b)
  {
    forall i, j | 0 <= i < j < |a + b|
      ensures Before((a + b)[i], (a + b)[j])
    {
      if j < |a| {
        assert Before(a[i], a[j]);
      } else if i >= |a| {
        assert Before(b[i - |a|], b[j - |a|]);
      } else {
        assert a[i] in a && b[j - |a|] in b;
      }
    }
  }

  /** The inner loop only moves forward through its day. */
  lemma SlotsFromLater(day: Date, minute: int, ctx: Context)
    requires Valid(day) && minute >= 0
    ensures forall y :: y in SlotsFrom(day, minute, ctx) ==> y.day == day && y.minute >= minute
  {
    forall y | y in SlotsFrom(day, minute, ctx)
      ensures y.day == day && y.minute >= minute
    {
      SlotsFromMembers(day, minute, ctx, y);
    }
  }

  lemma {:induction false} SlotsFromChronological(day: Date, minute: int, ctx: Context)
    requires Valid(day) && minute >= 0
    ensures Chronological(SlotsFrom(day, minute, ctx))
    decreases SlotMeasure(minute, ctx.dur)
  {
    if Fits(minute, ctx.dur) {
      FitsBelowLastStart(minute, ctx.dur);
      var head := if Offered(day, minute, ctx) then [Slot(day, minute)] else [];
      var rest := SlotsFrom(day, minute + 60, ctx);
      assert SlotsFrom(day, minute, ctx) == head + rest;
      SlotsFromChronological(day, minute + 60, ctx);
      SlotsFromLater(day, minute + 60, ctx);
      ChronologicalAppend(head, rest);
    }
  }

  lemma {:induction false} AvailableFromChronological(day: Date, start: Date, end: Date, preferred: Option<string>, ctx: Context)
    requires Valid(day) && Valid(end)
    ensures Chronological(AvailableFrom(day, start, end, preferred, ctx))
    decreases DayMeasure(day, end)
  {
    if Ordinal(day) <= Ordinal(end) {
      OrdinalNextDay(day);
      var here := DaySlots(day, day == start, preferred, ctx);
      var rest := AvailableFrom(NextDay(day), start, end, preferred, ctx);
      var first := FirstStart(day == start, preferred);
      if Weekday(day) != Sunday && first.Some? {
        SlotsFromChronological(day, first.value, ctx);
      }
      AvailableFromChronological(NextDay(day), start, end, preferred, ctx);
      forall x, y | x in here && y in rest
        ensures Before(x, y)
      {
        DaySlotsMembers(day, day == start, preferred, ctx, x);
        AvailableFromMembers(NextDay(day), start, end, preferred, ctx, y);
      }
      ChronologicalAppend(here, rest);
    }
  }

  /** The suggestions come in chronological order, at most three of them,
      and they are the earliest slots the search offers. */
  lemma SuggestedChronological(start: Date, end: Date, preferred: Option<string>, ctx: Context)
    requires Valid(start) && Valid(end)
    ensures Chronological(Suggested(start, end, preferred, ctx))
    ensures |Suggested(start, end, preferred, ctx)| <= MaxSuggested
  {
    var all := AvailableFrom(start, start, end, preferred, ctx);
    AvailableFromChronological(start, start, end, preferred, ctx);
    var r := FirstSuggested(all);
    assert forall i :: 0 <= i < |r| ==> r[i] == all[i];
  }

  /** From the second day on, the search does not depend on the preferred
      time. */
  lemma {:induction false} LaterDaysIgnorePreference(day: Date, start: Date, end: Date, p: Option<string>, q: Option<string>, ctx: Context)
    requires Valid(day) && Valid(start) && Valid(end) && Ordinal(start) < Ordinal(day)
    ensures AvailableFrom(day, start, end, p, ctx) == AvailableFrom(day, start, end, q, ctx)
    decreases DayMeasure(day, end)
  {
    if Ordinal(day) <= Ordinal(end) {
      OrdinalNextDay(day);
      assert day != start;
      LaterDaysIgnorePreference(NextDay(day), start, end, p, q, ctx);
    }
  }

  /** The preferred time only shapes the first requested day: the search
      with any preference is that day's slots followed by the search from
      the next day without one. */
  lemma PreferenceOnlyFirstDay(start: Date, end: Date, preferred: Option<string>, ctx: Context)
    requires Valid(start) && Valid(end) && Ordinal(start) <= Ordinal(end)
    ensures AvailableFrom(start, start, end, preferred, ctx) ==
      DaySlots(start, true, preferred, ctx) + AvailableFrom(NextDay(start), start, end, None, ctx)
  {
    OrdinalNextDay(start);
    LaterDaysIgnorePreference(NextDay(start), start, end, preferred, None, ctx);
  }

  // ------------------------------------------------------------- holds

  /** The hold keys of the slots, in order. */
  function HoldKeys(slots: seq<Slot>): seq<string>
    requires WellPlaced(slots)
  {
    if slots == [] then [] else HoldKeys(slots[..|slots| - 1]) + [HoldKey(slots[|slots| - 1].day, slots[|slots| - 1].minute)]
  }

  /** After writing holds for keys: each of them reads as the user at the
      instant of writing, and every other key is as in data. */
  ghost predicate HoldsWritten(r: KV.Data, data: KV.Data, keys: seq<string>, user: string, now: int)
  {
    && (forall k :: k in keys ==> KV.Get(r, k, now) == Some(KV.Text(user)))
    && (forall k :: k !in keys ==> (k in r <==> k in data))
    && (forall k :: k !in keys && k in data ==> r[k] == data[k])
  }

  /** One more SETEX keeps the earlier holds and adds its own. */
  lemma HoldsWrittenStep(prev: KV.Data, data: KV.Data, keys: seq<string>, key: string, user: string, now: int)
    requires HoldsWritten(prev, data, keys, user, now)
    ensures HoldsWritten(KV.SetEx(prev, key, KV.Text(user), HoldTtlSeconds, now), data, keys + [key], user, now)
  {
    var r := KV.SetEx(prev, key, KV.Text(user), HoldTtlSeconds, now);
    forall k | k in keys + [key]
      ensures KV.Get(r, k, now) == Some(KV.Text(user))
    {
      KV.GetAfterSetEx(prev, key, KV.Text(user), HoldTtlSeconds, now, k, now);
    }
  }

  /** The hold writes: SETEX hold:<start> 1800 user_id for each suggested
      slot in turn. */
  function WriteHolds(data: KV.Data, slots: seq<Slot>, user: string, now: int): (r: KV.Data)
    requires WellPlaced(slots)
    ensures HoldsWritten(r, data, HoldKeys(slots), user, now)
  {
    if slots == [] then data
    else
      var init := slots[..|slots| - 1];
      var s := slots[|slots| - 1];
      var key := HoldKey(s.day, s.minute);
      HoldsWrittenStep(WriteHolds(data, init, user, now), data, HoldKeys(init), key, user, now);
      KV.SetEx(WriteHolds(data, init, user, now), key, KV.Text(user), HoldTtlSeconds, now)
  }

  /** After the writes, each suggested slot's key reads as the user for 30
      minutes, and no other key is touched. */
  lemma {:induction false} WriteHoldsEffect(data: KV.Data, slots: seq<Slot>, user: string, now: int, key: string, t: int)
    requires WellPlaced(slots)
    ensures KV.Get(WriteHolds(data, slots, user, now), key, t) ==
      if key !in HoldKeys(slots) then KV.Get(data, key, t)
      else if t < now + HoldTtlSeconds * KV.MillisPerSecond then Some(KV.Text(user))
      else None
  {
    if slots != [] {
      var init := slots[..|slots| - 1];
      var s := slots[|slots| - 1];
      WriteHoldsEffect(data, init, user, now, key, t);
      KV.GetAfterSetEx(WriteHolds(data, init, user, now), HoldKey(s.day, s.minute), KV.Text(user), HoldTtlSeconds, now, key, t);
      assert HoldKeys(slots) == HoldKeys(init) + [HoldKey(s.day, s.minute)];
    }
  }

  /** The store as the search reads it. */
  function View(store: Store?): Option<(KV.Data, int)>
    reads store
  {
    if store == null then None else Some((store.data, store.now))
  }

  // ------------------------------------------------------------ methods

  /** The loop collecting day_events. */
  method CollectDayEvents(events: seq<CalendarEvent>, day: Date) returns (dayEvents: seq<CalendarEvent>)
    requires Valid(day)
    ensures dayEvents == DayEvents(events, day)
  {
    dayEvents := [];
    for i := 0 to |events|
      invariant dayEvents == DayEvents(events[..i], day)
    {
      assert events[..i + 1][..i] == events[..i];
      if OnDay(events[i], day) {
        dayEvents := dayEvents + [events[i]];
      }
    }
    assert events[..|events|] == events;
  }

  /** The loop counting the day's events that overlap a slot. */
  method CountOverlapping(dayEvents: seq<CalendarEvent>, slotStart: int, dur: real) returns (count: nat)
    ensures count == OverlapCount(dayEvents, slotStart, dur)
  {
    count := 0;
    for i := 0 to |dayEvents|
      invariant count == OverlapCount(dayEvents[..i], slotStart, dur)
    {
      assert dayEvents[..i + 1][..i] == dayEvents[..i];
      if Overlaps(dayEvents[i], slotStart, dur) {
        count := count + 1;
      }
    }
    assert dayEvents[..|dayEvents|] == dayEvents;
  }

  /** One grid start: count the overlapping events and, when fewer than two,
      look up the hold. */
  method CheckSlot(store: Store?, day: Date, minute: int, dayEvents: seq<CalendarEvent>, ctx: Context)
    returns (keep: bool)
    requires Valid(day) && minute >= 0
    requires ctx.holds == View(store) && dayEvents == DayEvents(ctx.events, day)
    ensures keep == Offered(day, minute, ctx)
  {
    var count := CountOverlapping(dayEvents, Instant(day, minute), ctx.dur);
    keep := false;
    if count < 2 {
      var holder: Option<KV.Value> := None;
      if store != null {
        holder := store.Get(ctx.key(day, minute));
      }
      keep := !HeldByOther(holder, ctx.user);
    }
  }

  /** The inner while loop over one day's grid. */
  method SearchDay(store: Store?, day: Date, first: int, dayEvents: seq<CalendarEvent>, ctx: Context)
    returns (found: seq<Slot>)
    requires Valid(day) && first >= 0
    requires ctx.holds == View(store) && dayEvents == DayEvents(ctx.events, day)
    ensures found == SlotsFrom(day, first, ctx)
  {
    found := [];
    var minute := first;
    while minute as real + ctx.dur * 60.0 <= ClosingMinute as real
      invariant minute >= first
      invariant found + SlotsFrom(day, minute, ctx) == SlotsFrom(day, first, ctx)
      decreases LastStart(ctx.dur) - minute
    {
      FitsBelowLastStart(minute, ctx.dur);
      var keep := CheckSlot(store, day, minute, dayEvents, ctx);
      var head := if keep then [Slot(day, minute)] else [];
      var rest := SlotsFrom(day, minute + 60, ctx);
      assert SlotsFrom(day, minute, ctx) == head + rest;
      Text.AppendAssoc(found, head, rest);
      found := found + head;
      minute := minute + 60;
    }
  }

  /** One pass of the outer loop: Sundays are skipped before anything else,
      then day_events are collected and the first start chosen. */
  method SearchDate(store: Store?, day: Date, isFirstDay: bool, preferred: Option<string>, ctx: Context)
    returns (today: seq<Slot>)
    requires Valid(day) && ctx.holds == View(store)
    ensures today == DaySlots(day, isFirstDay, preferred, ctx)
  {
    today := [];
    if Weekday(day) != Sunday {
      var dayEvents := CollectDayEvents(ctx.events, day);
      var first := FirstStart(isFirstDay, preferred);
      if first.Some? {
        today := SearchDay(store, day, first.value, dayEvents, ctx);
      }
    }
  }

  /** The hold writes, one SETEX per suggested slot. */
  method PlaceHolds(store: Store, slots: seq<Slot>, user: string)
    requires WellPlaced(slots)
    modifies store
    ensures store.data == WriteHolds(old(store.data), slots, user, old(store.now))
    ensures store.now == old(store.now)
  {
    for i := 0 to |slots|
      invariant store.data == WriteHolds(old(store.data), slots[..i], user, old(store.now))
      invariant store.now == old(store.now)
    {
      assert slots[..i + 1][..i] == slots[..i];
      store.SetEx(HoldKey(slots[i].day, slots[i].minute), KV.Text(user), HoldTtlSeconds);
    }
    assert slots[..|slots|] == slots;
  }

  /** check_availability. start and end are the requested dates as text,
      read with '%Y-%m-%d' before anything else: a text strptime rejects
      raises ValueError out of the call (None), and an absent end is the
      start. events is the calendar listing, None when it fails with an
      HTTP error; store is the hold store, null when none is configured.
      The result is the first three offered slots in order; holds are
      written for exactly those, and only when a store and a non-empty
      user_id are present. */
  method CheckAvailability(
    store: Store?, events: Option<seq<CalendarEvent>>, start: string, end: Option<string>,
    duration: Option<real>, price: Option<real>, user: Option<string>, preferred: Option<string>)
    returns (slots: Option<seq<Slot>>)
    modifies store
    ensures slots.None? <==> ParseDate(start).None? || (end.Some? && ParseDate(end.value).None?)
    ensures slots.Some? && events.None? ==> slots.value == []
    ensures slots.Some? && events.Some? ==>
      var first := ParseDate(start).value;
      slots.value == Suggested(first, if end.Some? then ParseDate(end.value).value else first, preferred,
        Context(events.value, BookingDuration(duration, price), user, old(View(store)), HoldKey))
    ensures store != null ==> store.now == old(store.now)
    ensures store != null ==>
      store.data == if slots.Some? && events.Some? && user.Some? && user.value != [] then WriteHolds(old(store.data), slots.value, user.value, old(store.now))
        else old(store.data)
  {
    var first := ParseDate(start);
    if first.None? {
      return None;
    }
    var last := first.value;
    if end.Some? {
      var e := ParseDate(end.value);
      if e.None? {
        return None;
      }
      last := e.value;
    }
    if events.None? {
      return Some([]);
    }
    var ctx := Context(events.value, BookingDuration(duration, price), user, View(store), HoldKey);
    var available := SearchDays(store, first.value, last, preferred, ctx);
    var suggested := FirstSuggested(available);
    assert suggested == Suggested(first.value, last, preferred, ctx);
    if store != null && user.Some? && user.value != [] {
      PlaceHolds(store, suggested, user.value);
    }
    slots := Some(suggested);
  }

  /** The outer while loop, from the first requested day through the last. */
  method SearchDays(store: Store?, start: Date, last: Date, preferred: Option<string>, ctx: Context)
    returns (available: seq<Slot>)
    requires Valid(start) && Valid(last) && ctx.holds == View(store)
    ensures available == AvailableFrom(start, start, last, preferred, ctx)
  {
    available := [];
    var current := start;
    while Ordinal(current) <= Ordinal(last)
      invariant Valid(current)
      invariant available + AvailableFrom(current, start, last, preferred, ctx) == AvailableFrom(start, start, last, preferred, ctx)
      decreases DayMeasure(current, last)
    {
      OrdinalNextDay(current);
      var today := SearchDate(store, current, current == start, preferred, ctx);
      var rest := AvailableFrom(NextDay(current), start, last, preferred, ctx);
      assert AvailableFrom(current, start, last, preferred, ctx) == today + rest;
      Text.AppendAssoc(available, today, rest);
      available := available + today;
      current := NextDay(current);
    }
  }

  /** create_booking's hold release. The '%Y-%m-%d %H:%M' reading of the
      date and the time joined by a space must succeed and the calendar
      insert (inserted) must go through; then the hold for the booked start
      is deleted when a store is configured. Any failure returns None and
      leaves the holds alone. */
  method CreateBooking(store: Store?, date: string, time: string, inserted: bool) returns (booked: Option<Slot>)
    modifies store
    ensures booked.Some? <==> ParseDateTime(date + " " + time).Some? && inserted
    ensures booked.Some? ==>
      var (day, h, m) := ParseDateTime(date + " " + time).value;
      booked.value == Slot(day, h * 60 + m) && Valid(day) && 0 <= booked.value.minute < MinutesPerDay
    ensures store != null ==> store.now == old(store.now)
    ensures store != null ==>
      store.data == if booked.Some? then KV.Del(old(store.data), HoldKey(booked.value.day, booked.value.minute))
        else old(store.data)
  {
    var start := ParseDateTime(date + " " + time);
    if start.None? || !inserted {
      return None;
    }
    var (day, h, m) := start.value;
    var slot := Slot(day, h * 60 + m);
    if store != null {
      store.Del(HoldKey(slot.day, slot.minute));
    }
    booked := Some(slot);
  }

  /** Booking one slot frees its hold and keeps the others: the booked
      start's key reads as absent, and a different start keeps whatever it
      read. */
  lemma BookingFreesOnlyItsHold(data: KV.Data, booked: Slot, other: Slot, t: int)
    requires Valid(booked.day) && booked.day.year < 10000 && 0 <= booked.minute < MinutesPerDay
    requires Valid(other.day) && other.day.year < 10000 && 0 <= other.minute < MinutesPerDay
    ensures KV.Get(KV.Del(data, HoldKey(booked.day, booked.minute)), HoldKey(booked.day, booked.minute), t).None?
    ensures other != booked ==>
      KV.Get(KV.Del(data, HoldKey(booked.day, booked.minute)), HoldKey(other.day, other.minute), t) ==
      KV.Get(data, HoldKey(other.day, other.minute), t)
  {
    if other != booked && HoldKey(other.day, other.minute) == HoldKey(booked.day, booked.minute) {
      HoldKeyInjective(other.day, other.minute, booked.day, booked.minute);
    }
  }
}
