/** The input validators: each one returns the normalised value or reports
    a ValidationError (a Python exception in the original, an Err here). */
module Validation {
  import opened Wrappers
  import opened Text
  import opened Dates
  import opened Durations

  /** Why a validator refused its input (the messages differ only in the
      values they quote). */
  datatype ValidationError =
    | Empty
    | WrongLength(length: int)
    | NotDigits
    | WrongPrefix(prefix: string)
    | BadFormat
    | InPast
    | OutsideBusinessHours
    | NotPositive
    | TooLarge
    | TooShort
    | TooLong
    | BadCharacters

  /** a can be obtained from b by deleting characters. */
  predicate Subsequence(a: string, b: string)
  {
    if a == [] then true
    else if b == [] then false
    else if a[0] == b[0] then Subsequence(a[1..], b[1..])
    else Subsequence(a, b[1..])
  }

  lemma {:induction false} SubsequenceOfSelf(s: string)
    ensures Subsequence(s, s)
  {
    if s != [] {
      SubsequenceOfSelf(s[1..]);
    }
  }

  /** Dropping the head of b keeps every subsequence of its tail. */
  lemma {:induction false} SubsequenceSkip(a: string, b: string)
    requires b != [] && Subsequence(a, b[1..])
    ensures Subsequence(a, b)
    decreases |b|, 0
  {
    if a != [] && a[0] == b[0] {
      SubsequenceTail(a, b[1..]);
    }
  }

  /** A subsequence without its head is still a subsequence. */
  lemma {:induction false} SubsequenceTail(a: string, b: string)
    requires a != [] && Subsequence(a, b)
    ensures Subsequence(a[1..], b)
    decreases |b|, 1
  {
    if a[0] == b[0] {
      if b[1..] != [] {
        SubsequenceSkip(a[1..], b);
      }
    } else {
      SubsequenceTail(a, b[1..]);
      SubsequenceSkip(a[1..], b);
    }
  }

  // ---------------------------------------------------------------- phone

  /** The characters the phone cleaner removes: \s, '-', '(' and ')'. */
  predicate IsPhoneSeparator(c: char)
  {
    IsSpace(c) || c == '-' || c == '(' || c == ')'
  }

  /** re.sub(r'[\s\-\(\)]', '', phone). */
  function CleanPhone(s: string): (r: string)
    ensures forall k :: 0 <= k < |r| ==> !IsPhoneSeparator(r[k])
  {
    if s == [] then [] else (if IsPhoneSeparator(s[0]) then [] else [s[0]]) + CleanPhone(s[1..])
  }

  lemma {:induction false} CleanPhoneAppend(a: string, b: string)
    ensures CleanPhone(a + b) == CleanPhone(a) + CleanPhone(b)
  {
    if a != [] {
      CleanPhoneAppend(a[1..], b);
      assert (a + b)[1..] == a[1..] + b;
    } else {
      assert a + b == b;
    }
  }

  /** A separator-free string is left as it is by the cleaner. */
  lemma {:induction false} CleanPhoneFixed(s: string)
    requires forall k :: 0 <= k < |s| ==> !IsPhoneSeparator(s[k])
    ensures CleanPhone(s) == s
  {
    if s != [] {
      CleanPhoneFixed(s[1..]);
      assert s == [s[0]] + s[1..];
    }
  }

  /** Removal of the Greek country code: "+30", else "0030", else "30" when
      the cleaned number has 12 characters. */
  function DropCountryCode(c: string): string
  {
    if StartsWith(c, "+30") then c[3..]
    else if StartsWith(c, "0030") then c[4..]
    else if StartsWith(c, "30") && |c| == 12 then c[2..]
    else c
  }

  /** A Greek mobile (69, 68) or landline (2) prefix. */
  predicate GreekPrefix(c: string)
  {
    StartsWith(c, "69") || StartsWith(c, "68") || (StartsWith(c, "2") && |c| == 10)
  }

  /** validate_phone_number. */
  function ValidatePhoneNumber(phone: string): (r: Result<string, ValidationError>)
    ensures phone == [] ==> r == Err(Empty)
    ensures r.Ok? ==> |r.value| == 10 && AllDigits(r.value) && GreekPrefix(r.value)
    ensures r.Ok? ==> r.value == DropCountryCode(CleanPhone(phone))
  {
    if phone == [] then Err(Empty)
    else
      var cleaned := DropCountryCode(CleanPhone(phone));
      if |cleaned| != 10 then Err(WrongLength(|cleaned|))
      else if !AllDigits(cleaned) then Err(NotDigits)
      else if !GreekPrefix(cleaned) then Err(WrongPrefix(cleaned[..2]))
      else Ok(cleaned)
  }

  /** A bare ten-digit number with a Greek prefix validates to itself. */
  lemma PhonePlain(d: string)
    requires |d| == 10 && AllDigits(d) && GreekPrefix(d)
    ensures ValidatePhoneNumber(d) == Ok(d)
  {
    CleanPhoneFixed(d);
    assert d[0] != '+' && d[0] != '0' && d[0] != '3' by {
      assert d[0] == '6' || d[0] == '2';
    }
    assert !StartsWith(d, "+30") by { assert d[..3][0] == d[0]; }
    assert !StartsWith(d, "0030") by { assert d[..4][0] == d[0]; }
    assert !StartsWith(d, "30") by { assert d[..2][0] == d[0]; }
  }

  /** Separators anywhere in the input do not change the outcome. */
  lemma PhoneSeparatorsIgnored(a: string, sep: string, b: string)
    requires a + b != []
    requires forall k :: 0 <= k < |sep| ==> IsPhoneSeparator(sep[k])
    ensures ValidatePhoneNumber(a + sep + b) == ValidatePhoneNumber(a + b)
  {
    CleanPhoneAppend(a + sep, b);
    CleanPhoneAppend(a, sep);
    CleanPhoneAppend(a, b);
    CleanPhoneGone(sep);
    assert CleanPhone(a) + [] == CleanPhone(a);
  }

  /** A separator-only string cleans to nothing. */
  lemma {:induction false} CleanPhoneGone(sep: string)
    requires forall k :: 0 <= k < |sep| ==> IsPhoneSeparator(sep[k])
    ensures CleanPhone(sep) == []
  {
    if sep != [] {
      CleanPhoneGone(sep[1..]);
    }
  }

  /** A "+30" country code, separated or not from the number, is
      dropped. */
  lemma PhoneCountryCode(d: string, sep: string)
    requires |d| == 10 && AllDigits(d) && GreekPrefix(d)
    requires forall k :: 0 <= k < |sep| ==> IsPhoneSeparator(sep[k])
    ensures ValidatePhoneNumber("+30" + sep + d) == Ok(d)
  {
    PhoneSeparatorsIgnored("+30", sep, d);
    CleanPhoneFixed("+30" + d);
    var c := "+30" + d;
    assert c[..3] == "+30";
    assert c[3..] == d;
    PhonePlain(d);
  }

  /** Validation is idempotent: an accepted number validates to itself. */
  lemma PhoneNormalised(phone: string)
    requires ValidatePhoneNumber(phone).Ok?
    ensures var v := ValidatePhoneNumber(phone).value; ValidatePhoneNumber(v) == Ok(v)
  {
    PhonePlain(ValidatePhoneNumber(phone).value);
  }

  // ----------------------------------------------------------- date, time

  /** validate_date with the default format, today given as a date. */
  function ValidateDate(s: string, today: Date): (r: Result<Date, ValidationError>)
    ensures r.Ok? ==> Valid(r.value) && ParseDate(s) == Some(r.value) && Key(today) <= Key(r.value)
    ensures r.Err? ==> s == [] || ParseDate(s).None? || Key(ParseDate(s).value) < Key(today)
  {
    if s == [] then Err(Empty)
    else match ParseDate(s)
      case None => Err(BadFormat)
      case Some(d) => if Key(d) < Key(today) then Err(InPast) else Ok(d)
  }

  /** A rendered date validates back to itself exactly when it is not
      before today. */
  lemma ValidateDateRoundTrip(d: Date, today: Date)
    requires Valid(d) && d.year < 10000
    ensures ValidateDate(FormatDate(d), today) == if Key(d) < Key(today) then Err(InPast) else Ok(d)
  {
    ParseFormatDate(d);
  }

  /** validate_time with the default format: business hours are 11:00 to
      20:00, the closing hour excluded. */
  function ValidateTime(s: string): (r: Result<(nat, nat), ValidationError>)
    ensures r.Ok? ==> 11 <= r.value.0 < 20 && r.value.1 < 60 && ParseTime(s) == Some(r.value)
    ensures r.Err? ==> s == [] || ParseTime(s).None? || !(11 <= ParseTime(s).value.0 < 20)
  {
    if s == [] then Err(Empty)
    else match ParseTime(s)
      case None => Err(BadFormat)
      case Some((h, m)) => if h < 11 || h >= 20 then Err(OutsideBusinessHours) else Ok((h, m))
  }

  /** A rendered time validates back to itself exactly within business
      hours. */
  lemma ValidateTimeRoundTrip(h: nat, m: nat)
    requires h < 24 && m < 60
    ensures ValidateTime(FormatHM(h, m)) == if 11 <= h < 20 then Ok((h, m)) else Err(OutsideBusinessHours)
  {
    ParseFormatTime(h, m);
  }

  // ------------------------------------------------------------- duration

  /** validate_duration: 1 hour by default, an explicit duration in (0, 10],
      else a price in (0, 5000] turned into hours (price / 100) and rounded
      up to five minutes. */
  function ValidateDuration(duration: Option<real>, price: Option<real>): (r: Result<real, ValidationError>)
    ensures duration.None? && price.None? ==> r == Ok(1.0)
    ensures duration.Some? ==> (r.Ok? <==> 0.0 < duration.value <= 10.0)
    ensures duration.Some? && r.Ok? ==> r.value == duration.value
    ensures duration.None? && price.Some? ==> (r.Ok? <==> 0.0 < price.value <= 5000.0)
    ensures duration.None? && price.Some? && r.Ok? ==>
      r.value * 60.0 == RoundedMinutes(price.value / 100.0) as real
  {
    if duration.None? && price.None? then Ok(1.0)
    else if duration.Some? then
      if duration.value <= 0.0 then Err(NotPositive)
      else if duration.value > 10.0 then Err(TooLarge)
      else Ok(duration.value)
    else if price.value <= 0.0 then Err(NotPositive)
    else if price.value > 5000.0 then Err(TooLarge)
    else
      var totalMinutes := price.value / 100.0 * 60.0;
      var roundedMinutes := Ceil(totalMinutes / 5.0) * 5;
      Ok(roundedMinutes as real / 60.0)
  }

  /** On every input it accepts, the validator picks the duration the
      calendar code would use for the same arguments. */
  lemma ValidateDurationAgrees(duration: Option<real>, price: Option<real>)
    requires ValidateDuration(duration, price).Ok?
    ensures ValidateDuration(duration, price).value == BookingDuration(duration, price)
  {
  }

  // ----------------------------------------------------------------- name

  /** The character class of validate_customer_name: Latin and Greek
      letters (lower-case Greek with its accented forms), whitespace, '-'
      and '.'. */
  predicate IsNameChar(c: char)
  {
    || 'a' <= c <= 'z' || 'A' <= c <= 'Z'
    || 'Α' <= c <= 'Ω' || 'α' <= c <= 'ω'
    || c == 'ί' || c == 'ϊ' || c == 'ΐ' || c == 'ό' || c == 'ά' || c == 'έ'
    || c == 'ύ' || c == 'ϋ' || c == 'ΰ' || c == 'ή' || c == 'ώ'
    || IsSpace(c) || c == '-' || c == '.'
  }

  predicate AllNameChars(s: string)
  {
    forall k :: 0 <= k < |s| ==> IsNameChar(s[k])
  }

  /** re.match(r'^[...]+$', name) for the name class: '$' also matches just
      before a final newline. */
  predicate NamePatternMatches(s: string)
  {
    || (|s| >= 1 && AllNameChars(s))
    || (|s| >= 2 && s[|s| - 1] == '\n' && AllNameChars(s[..|s| - 1]))
  }

  /** The checks validate_customer_name applies to the stripped name. */
  function CheckStrippedName(n: string): (r: Result<string, ValidationError>)
    ensures r.Ok? <==> 2 <= |n| <= 100 && NamePatternMatches(n)
    ensures r.Ok? ==> r.value == n
  {
    if |n| < 2 then Err(TooShort)
    else if |n| > 100 then Err(TooLong)
    else if !NamePatternMatches(n) then Err(BadCharacters)
    else Ok(n)
  }

  /** validate_customer_name. */
  function ValidateCustomerName(name: string): (r: Result<string, ValidationError>)
    ensures name == [] ==> r == Err(Empty)
    ensures r.Ok? <==> name != [] && 2 <= |Strip(name)| <= 100 && NamePatternMatches(Strip(name))
    ensures r.Ok? ==> r.value == Strip(name)
  {
    if name == [] then Err(Empty) else CheckStrippedName(Strip(name))
  }

  /** Since the stripped name cannot end in a newline, the pattern's
      trailing-newline allowance never applies: a name is accepted exactly
      when its stripped form has 2 to 100 characters, all from the class. */
  lemma CustomerNameAccepted(name: string)
    ensures ValidateCustomerName(name).Ok? <==> name != [] && 2 <= |Strip(name)| <= 100 && AllNameChars(Strip(name))
  {
    StripEnds(name);
  }

  /** An accepted name is returned unchanged by a second validation. */
  lemma CustomerNameNormalised(name: string, v: string)
    requires ValidateCustomerName(name) == Ok(v)
    ensures ValidateCustomerName(v) == Ok(v)
  {
    AcceptedNameStripped(name, v);
  }

  /** An accepted name is its own strip, so revalidating it only repeats
      the checks. */
  lemma AcceptedNameStripped(name: string, v: string)
    requires ValidateCustomerName(name) == Ok(v)
    ensures ValidateCustomerName(v) == CheckStrippedName(v)
  {
    StripIdempotent(name);
  }

  // ------------------------------------------------------------- event id

  /** [a-zA-Z0-9_]. */
  predicate IsIdChar(c: char)
  {
    'a' <= c <= 'z' || 'A' <= c <= 'Z' || '0' <= c <= '9' || c == '_'
  }

  predicate AllIdChars(s: string)
  {
    forall k :: 0 <= k < |s| ==> IsIdChar(s[k])
  }

  /** re.match(r'^[a-zA-Z0-9_]+$', id): '$' also matches just before a
      final newline. */
  predicate IdPatternMatches(s: string)
  {
    || (|s| >= 1 && AllIdChars(s))
    || (|s| >= 2 && s[|s| - 1] == '\n' && AllIdChars(s[..|s| - 1]))
  }

  /** validate_event_id as written: the pattern's '$' lets one trailing
      newline through. */
  function ValidateEventIdAsWritten(id: string): (r: Result<string, ValidationError>)
    ensures r.Ok? ==> r.value == id && 1 <= |id| <= 1024
    ensures r.Ok? <==> id != [] && IdPatternMatches(id) && |id| <= 1024
  {
    if id == [] then Err(Empty)
    else if !IdPatternMatches(id) then Err(BadFormat)
    else if |id| > 1024 then Err(TooLong)
    else Ok(id)
  }

  /** The as-written validator returns an id ending in a newline. */
  lemma EventIdNewlineAccepted()
    ensures ValidateEventIdAsWritten("abc\n") == Ok("abc\n")
  {
    assert AllIdChars("abc\n"[..3]);
  }

  /** validate_event_id as intended: a non-empty run of [A-Za-z0-9_] of at
      most 1024 characters, returned unchanged. */
  function ValidateEventId(id: string): (r: Result<string, ValidationError>)
    ensures r.Ok? <==> 1 <= |id| <= 1024 && AllIdChars(id)
    ensures r.Ok? ==> r.value == id
  {
    if id == [] then Err(Empty)
    else if !AllIdChars(id) then Err(BadFormat)
    else if |id| > 1024 then Err(TooLong)
    else Ok(id)
  }

  /** The two agree on every id that does not end in a newline. */
  lemma EventIdVersionsAgree(id: string)
    requires id == [] || id[|id| - 1] != '\n'
    ensures ValidateEventIdAsWritten(id) == ValidateEventId(id)
  {
  }

  // ------------------------------------------------------------- sanitize

  /** What sanitize_text_input keeps: word characters (Python's Unicode \w,
      given as isWord), whitespace and . , ! ? ; : - ( ) / " ' and newline. */
  predicate Kept(c: char, isWord: char -> bool)
  {
    || isWord(c) || IsSpace(c)
    || c == '.' || c == ',' || c == '!' || c == '?' || c == ';' || c == ':'
    || c == '-' || c == '(' || c == ')' || c == '/' || c == '"' || c == '\''
  }

  /** The kept characters of s, in order: the sanitiser's substitution of
      every character outside the class by nothing. */
  function KeepAllowed(s: string, isWord: char -> bool): (r: string)
    ensures |r| <= |s|
    ensures forall k :: 0 <= k < |r| ==> Kept(r[k], isWord)
  {
    if s == [] then [] else (if Kept(s[0], isWord) then [s[0]] else []) + KeepAllowed(s[1..], isWord)
  }

  /** The filter only deletes characters. */
  lemma {:induction false} KeepAllowedSubsequence(s: string, isWord: char -> bool)
    ensures Subsequence(KeepAllowed(s, isWord), s)
  {
    if s != [] {
      KeepAllowedSubsequence(s[1..], isWord);
      var rest := KeepAllowed(s[1..], isWord);
      if Kept(s[0], isWord) {
        assert KeepAllowed(s, isWord) == [s[0]] + rest;
        assert ([s[0]] + rest)[1..] == rest;
      } else {
        assert KeepAllowed(s, isWord) == rest;
        SubsequenceSkip(rest, s);
      }
    }
  }

  /** The filter keeps exactly the allowed characters of s. */
  lemma {:induction false} KeepAllowedMembers(s: string, isWord: char -> bool, c: char)
    ensures c in KeepAllowed(s, isWord) <==> c in s && Kept(c, isWord)
  {
    if s != [] {
      KeepAllowedMembers(s[1..], isWord, c);
      assert s == [s[0]] + s[1..];
    }
  }

  /** sanitize_text_input. */
  function SanitizeTextInput(text: string, maxLength: int, isWord: char -> bool): (r: Result<string, ValidationError>)
    ensures text == [] ==> r == Ok([])
    ensures r.Err? <==> text != [] && |Strip(text)| > maxLength
    ensures r.Ok? && text != [] ==> r.value == KeepAllowed(Strip(text), isWord)
  {
    if text == [] then Ok([])
    else
      var t := Strip(text);
      if |t| > maxLength then Err(TooLong)
      else Ok(KeepAllowed(t, isWord))
  }

  /** The sanitised text is a subsequence of the stripped input, no longer
      than it, and it drops exactly the disallowed characters. */
  lemma SanitizeKeepsAllowed(text: string, maxLength: int, isWord: char -> bool, c: char)
    requires text != [] && SanitizeTextInput(text, maxLength, isWord).Ok?
    ensures |SanitizeTextInput(text, maxLength, isWord).value| <= |Strip(text)| <= maxLength
    ensures Subsequence(SanitizeTextInput(text, maxLength, isWord).value, Strip(text))
    ensures c in SanitizeTextInput(text, maxLength, isWord).value <==> c in Strip(text) && Kept(c, isWord)
  {
    KeepAllowedSubsequence(Strip(text), isWord);
    KeepAllowedMembers(Strip(text), isWord, c);
  }
}
