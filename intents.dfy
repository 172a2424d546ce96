/** The pure helpers of the webhook handler: ranking the classified
    intents (get_openai_call_for_intent), turning a DD/MM/YYYY date into
    YYYY-MM-DD, and finding a phone number in the conversation history. */
module Intents {
  import opened Wrappers
  import opened Text
  import opened Dates
  import opened Events
  import opened Sorting

  // ---------------------------------------------------------------------
  // Intent ranking
  // ---------------------------------------------------------------------

  /** One classified intent: its "primary" label and its "confidence",
      either of which may be absent. */
  datatype Intent = Intent(primary: Option<string>, confidence: Option<real>)

  /** intent_priority.get(label, 999): a lower number ranks first. */
  function Priority(name: string): (p: int)
    ensures 1 <= p <= 999
    ensures p == 999 <==> name !in {"pricing", "booking_request", "studio_information", "follow_up", "other"}
  {
    if name == "pricing" then 1
    else if name == "booking_request" then 2
    else if name == "studio_information" then 3
    else if name == "follow_up" then 4
    else if name == "other" then 5
    else 999
  }

  /** x.get("primary", "other"). */
  function Label(x: Intent): string
  {
    match x.primary
    case Some(l) => l
    case None => "other"
  }

  /** x.get("confidence", 0). */
  function Confidence(x: Intent): real
  {
    match x.confidence
    case Some(c) => c
    case None => 0.0
  }

  /** The sort key (priority, -confidence). */
  function RankOf(x: Intent): Rank
  {
    Rank(Priority(Label(x)), -Confidence(x))
  }

  /** The ranking of get_openai_call_for_intent. */
  function SortIntents(xs: seq<Intent>): seq<Intent>
  {
    SortBy(xs, RankOf)
  }

  /** primary_intent: the first of the ranking, or {"primary": "other"} when
      there is none. It is one of the intents and ranks no lower than any
      of them. */
  function PrimaryIntent(xs: seq<Intent>): (r: Intent)
    ensures xs == [] ==> r == Intent(Some("other"), None)
    ensures xs != [] ==> r in xs && forall x :: x in xs ==> RankLe(RankOf(r), RankOf(x))
  {
    var sorted := SortIntents(xs);
    if sorted == [] then Intent(Some("other"), None)
    else
      HeadRanksFirst(xs);
      sorted[0]
  }

  /** The head of the ranking is one of the intents and ranks no lower than
      any of them. */
  lemma HeadRanksFirst(xs: seq<Intent>)
    requires xs != []
    ensures SortIntents(xs) != []
    ensures SortIntents(xs)[0] in xs
    ensures forall x :: x in xs ==> RankLe(RankOf(SortIntents(xs)[0]), RankOf(x))
  {
    var sorted := SortIntents(xs);
    SortBySorted(xs, RankOf);
    var p := sorted[0];
    assert p in multiset(xs);
    forall x | x in xs
      ensures RankLe(RankOf(p), RankOf(x))
    {
      assert x in multiset(sorted);
      var j :| 0 <= j < |sorted| && sorted[j] == x;
    }
  }

  /** The primary intent is one of the intents, ranks no lower than any of
      them, and is the first listed among those of its rank. */
  lemma PrimaryIsFirstBest(xs: seq<Intent>)
    requires xs != []
    ensures PrimaryIntent(xs) in xs
    ensures forall x :: x in xs ==> RankLe(RankOf(PrimaryIntent(xs)), RankOf(x))
    ensures WithRank(xs, RankOf(PrimaryIntent(xs)), RankOf) != []
    ensures WithRank(xs, RankOf(PrimaryIntent(xs)), RankOf)[0] == PrimaryIntent(xs)
  {
    var sorted := SortIntents(xs);
    SortBySorted(xs, RankOf);
    var p := sorted[0];
    SortByStable(xs, RankOf(p), RankOf);
    assert WithRank(sorted, RankOf(p), RankOf)[0] == p;
  }

  /** other_intents: the rest of the ranking, without intents whose
      "primary" equals the chosen one's. */
  function OtherIntents(xs: seq<Intent>): (r: seq<Intent>)
    ensures forall x :: x in r ==> x in xs && x.primary != PrimaryIntent(xs).primary
  {
    var sorted := SortIntents(xs);
    if sorted == [] then []
    else
      var r := Others(sorted[1..], PrimaryIntent(xs).primary);
      assert forall x :: x in r ==> x in multiset(sorted);
      r
  }

  /** The intents in s whose "primary" differs from the given one, in order. */
  function Others(s: seq<Intent>, primary: Option<string>): (r: seq<Intent>)
    ensures forall k :: 0 <= k < |r| ==> r[k].primary != primary
    ensures forall x :: x in s && x.primary != primary ==> x in r
    ensures forall x :: x in r ==> x in s
  {
    if s == [] then []
    else (if s[0].primary != primary then [s[0]] else []) + Others(s[1..], primary)
  }

  /** No other intent shares the primary label, and every ranked intent
      with a different label is among the others. */
  lemma OtherIntentsExclude(xs: seq<Intent>)
    ensures forall x :: x in OtherIntents(xs) ==> x in xs && x.primary != PrimaryIntent(xs).primary
    ensures forall x :: x in xs && x.primary != PrimaryIntent(xs).primary ==> x in OtherIntents(xs)
  {
    var sorted := SortIntents(xs);
    SortBySorted(xs, RankOf);
    if sorted != [] {
      forall x | x in xs && x.primary != PrimaryIntent(xs).primary
        ensures x in sorted[1..]
      {
        assert x in multiset(sorted);
        var j :| 0 <= j < |sorted| && sorted[j] == x;
        assert j != 0;
        assert sorted[1..][j - 1] == x;
      }
    } else {
      assert multiset(xs) == multiset{};
    }
  }

  // ---------------------------------------------------------------------
  // DD/MM/YYYY to YYYY-MM-DD
  // ---------------------------------------------------------------------

  /** The conversion of start_date / end_date: a non-empty value holding '/'
      is split into day, month and year and rewritten as year, zero-filled
      month and zero-filled day; any other value passes through. None where
      the unpacking raises ValueError (not exactly three parts). */
  function ConvertDate(s: string): (r: Option<string>)
    ensures '/' !in s ==> r == Some(s)
    ensures r.Some? ==> '/' !in r.value
  {
    if s == [] || '/' !in s then Some(s)
    else
      var parts := Split(s, '/');
      if |parts| != 3 then None
      else
        var r := parts[2] + "-" + ZFill2(parts[1]) + "-" + ZFill2(parts[0]);
        assert Free(parts[0], '/') && Free(parts[1], '/') && Free(parts[2], '/');
        assert forall j :: 0 <= j < |r| ==> r[j] != '/';
        Some(r)
  }

  /** zfill(2) of str(n) is n on two digits. */
  lemma ZFillNat(n: nat)
    requires n < 100
    ensures ZFill2(NatToString(n)) == Pad2(n)
  {
    if n >= 10 {
      assert NatToString(n / 10) == [DigitChar(n / 10)];
    }
  }

  /** The forms a day or month number may take before conversion: with or
      without a leading zero. */
  predicate NumberText(t: string, n: nat)
  {
    n < 100 && (t == NatToString(n) || t == Pad2(n))
  }

  /** Three slash-free pieces joined by '/' convert piece by piece. */
  lemma ConvertThreeParts(day: string, month: string, year: string)
    requires day != [] && Free(day, '/') && Free(month, '/') && Free(year, '/')
    ensures ConvertDate(day + "/" + month + "/" + year) == Some(year + "-" + ZFill2(month) + "-" + ZFill2(day))
  {
    var s := day + "/" + month + "/" + year;
    var parts := [day, month, year];
    assert Join(parts[2..], '/') == year;
    assert Join(parts[1..], '/') == month + "/" + year;
    assert Join(parts, '/') == s;
    SplitJoin(parts, '/');
    assert s[|day|] == '/';
  }

  /** A date written as D/M/YYYY or DD/MM/YYYY converts to the ISO form of
      that date, which strptime then reads back as the same date. */
  lemma ConvertDayMonthYear(d: Date, dayText: string, monthText: string)
    requires Valid(d) && d.year < 10000
    requires NumberText(dayText, d.day) && NumberText(monthText, d.month)
    ensures ConvertDate(dayText + "/" + monthText + "/" + Pad4(d.year)) == Some(FormatDate(d))
    ensures ParseDate(FormatDate(d)) == Some(d)
  {
    ZFillNat(d.day);
    ZFillNat(d.month);
    Pad4Free(d.year, '/');
    assert Free(dayText, '/') && Free(monthText, '/');
    ConvertThreeParts(dayText, monthText, Pad4(d.year));
    ParseFormatDate(d);
  }

  // ---------------------------------------------------------------------
  // extract_phone_number_from_context
  // ---------------------------------------------------------------------

  /** Number of phone patterns tried on each message, most specific first. */
  const PatternCount: nat := 5

  /** s.replace(pat, ""): every non-overlapping occurrence, from the left,
      removed. */
  function RemoveAll(s: string, pat: string): (r: string)
    requires pat != []
    ensures |r| <= |s|
    decreases |s|
  {
    if |s| < |pat| then s
    else if s[..|pat|] == pat then RemoveAll(s[|pat|..], pat)
    else [s[0]] + RemoveAll(s[1..], pat)
  }

  /** A phone number as the function returns it: ten ASCII digits. */
  predicate TenDigits(p: string)
  {
    |p| == 10 && forall k :: 0 <= k < |p| ==> IsAsciiDigit(p[k])
  }

  /** The first match of a pattern, cleaned of "+30" and spaces, when it is
      ten digits. */
  function Candidate(matches: seq<string>): (r: Option<string>)
    ensures r.Some? ==> TenDigits(r.value)
  {
    if matches == [] then None
    else
      var phone := RemoveAll(RemoveAll(matches[0], "+30"), " ");
      if TenDigits(phone) then Some(phone) else None
  }

  /** The patterns from index p on, tried in order on one message; the
      first whose first match is a phone number wins. */
  function PhoneInPatterns(content: string, findall: (string, nat) -> seq<string>, p: nat): (r: Option<string>)
    ensures r.Some? ==> TenDigits(r.value)
    decreases PatternCount - p
  {
    if p >= PatternCount then None
    else
      match Candidate(findall(content, p))
      case Some(phone) => Some(phone)
      case None => PhoneInPatterns(content, findall, p + 1)
  }

  /** The phone number one history entry yields; an entry with empty
      content is skipped. */
  function PhoneIn(e: ChatEntry, findall: (string, nat) -> seq<string>): (r: Option<string>)
    ensures r.Some? ==> TenDigits(r.value)
  {
    if e.content == [] then None else PhoneInPatterns(e.content, findall, 0)
  }

  /** extract_phone_number_from_context, with re.findall for the i-th
      pattern given as findall(content, i): the entries are searched from
      the most recent back. */
  function ExtractPhone(context: seq<ChatEntry>, findall: (string, nat) -> seq<string>): (r: Option<string>)
    ensures r.Some? ==> TenDigits(r.value)
  {
    if context == [] then None
    else
      match PhoneIn(context[|context| - 1], findall)
      case Some(phone) => Some(phone)
      case None => ExtractPhone(context[..|context| - 1], findall)
  }

  /** Newer history hides older: a number found in the later part of the
      history is the answer, and the earlier part is searched only when
      the later part holds none. */
  lemma {:induction false} ExtractPhoneLatest(older: seq<ChatEntry>, newer: seq<ChatEntry>, findall: (string, nat) -> seq<string>)
    ensures ExtractPhone(older + newer, findall)
         == if ExtractPhone(newer, findall).Some? then ExtractPhone(newer, findall) else ExtractPhone(older, findall)
  {
    if newer == [] {
      assert older + newer == older;
    } else {
      var init := newer[..|newer| - 1];
      var all := older + newer;
      assert all[..|all| - 1] == older + init;
      assert all[|all| - 1] == newer[|newer| - 1];
      ExtractPhoneLatest(older, init, findall);
    }
  }
}
