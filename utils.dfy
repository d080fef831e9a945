/** The pure text helpers of the client: trimming, truncation, content
    validation, relative-time formatting, and decimal rendering of integers. */
module Utils {

  import opened Wrappers

  /** The characters `String.prototype.trim` strips: the ECMAScript
      WhiteSpace and LineTerminator code points. */
  predicate IsWhitespace(c: char)
  {
    || ('\U{9}' <= c <= '\U{D}')
    || c == ' ' || c == '\U{A0}' || c == '\U{1680}'
    || ('\U{2000}' <= c <= '\U{200A}')
    || c == '\U{2028}' || c == '\U{2029}' || c == '\U{202F}' || c == '\U{205F}'
    || c == '\U{3000}' || c == '\U{FEFF}'
  }

  /** Index of the first non-whitespace character (|s| if there is none). */
  function ContentStart(s: string): (k: nat)
    ensures k <= |s|
    ensures forall i :: 0 <= i < k ==> IsWhitespace(s[i])
    ensures k < |s| ==> !IsWhitespace(s[k])
  {
    if s != [] && IsWhitespace(s[0]) then 1 + ContentStart(s[1..]) else 0
  }

  /** Index just past the last non-whitespace character at or after k. */
  function ContentEnd(s: string, k: nat): (e: nat)
    requires k <= |s|
    ensures k <= e <= |s|
    ensures forall i :: e <= i < |s| ==> IsWhitespace(s[i])
    ensures e > k ==> !IsWhitespace(s[e - 1])
  {
    if |s| > k && IsWhitespace(s[|s| - 1]) then ContentEnd(s[..|s| - 1], k) else |s|
  }

  /** `s.trim()`: the slice of s between its leading and trailing whitespace. */
  function Trim(s: string): (r: string)
    ensures ContentStart(s) + |r| <= |s|
    ensures r == s[ContentStart(s)..ContentStart(s) + |r|]
    ensures r == [] <==> forall i :: 0 <= i < |s| ==> IsWhitespace(s[i])
    ensures r != [] ==> !IsWhitespace(r[0]) && !IsWhitespace(r[|r| - 1])
    ensures forall i :: ContentStart(s) + |r| <= i < |s| ==> IsWhitespace(s[i])
  {
    var k := ContentStart(s);
    var e := ContentEnd(s, k);
    assert k < |s| ==> e > k;
    s[k..e]
  }

  /** The number of UTF-16 code units JavaScript stores for one character:
      two for a character outside the Basic Multilingual Plane (a surrogate
      pair), one otherwise. */
  function CodeUnits(c: char): nat
  {
    if c >= '\U{10000}' then 2 else 1
  }

  /** The JavaScript `.length` of a string: its UTF-16 code units. */
  function Utf16Length(s: string): (n: nat)
    ensures |s| <= n <= 2 * |s|
  {
    if s == [] then 0 else CodeUnits(s[0]) + Utf16Length(s[1..])
  }

  lemma {:induction false} Utf16LengthConcat(a: string, b: string)
    ensures Utf16Length(a + b) == Utf16Length(a) + Utf16Length(b)
  {
    if a == [] {
      assert a + b == b;
    } else {
      assert (a + b)[1..] == a[1..] + b;
      Utf16LengthConcat(a[1..], b);
    }
  }

  /** A string of characters from the Basic Multilingual Plane is as long
      in code units as in characters. */
  lemma {:induction false} Utf16LengthOfBmp(s: string)
    requires forall i :: 0 <= i < |s| ==> s[i] < '\U{10000}'
    ensures Utf16Length(s) == |s|
  {
    if s != [] {
      Utf16LengthOfBmp(s[1..]);
    }
  }

  /** The number of whole characters that fit in the first m code units. */
  function Utf16Prefix(s: string, m: nat): (k: nat)
    ensures k <= |s|
    ensures Utf16Length(s[..k]) <= m
    ensures k < |s| ==> Utf16Length(s[..k + 1]) > m
  {
    if s == [] || CodeUnits(s[0]) > m then
      assert s != [] ==> s[..1] == [s[0]] && [s[0]][1..] == [];
      0
    else
      var k' := Utf16Prefix(s[1..], m - CodeUnits(s[0]));
      assert s[..k' + 1][1..] == s[1..][..k'];
      assert k' < |s| - 1 ==> s[..k' + 2][1..] == s[1..][..k' + 1];
      1 + k'
  }

  /** The position of the first c in s, or |s| when there is none: where
      `split(c)` ends the first piece. */
  function FirstIndexOf(s: string, c: char): (k: nat)
    ensures k <= |s|
    ensures forall i :: 0 <= i < k ==> s[i] != c
    ensures k < |s| ==> s[k] == c
  {
    if s == [] || s[0] == c then 0 else 1 + FirstIndexOf(s[1..], c)
  }

  /** `truncateText(text, maxLength)` (utils.ts): the text itself when its
      `.length` fits, else its first maxLength code units followed by "...".
      A negative maxLength clamps to 0, as `substring` does. The cut is made
      before a character that would not fit whole, so the kept part is
      maxLength code units long, or one less when the next character is a
      surrogate pair. */
  function TruncateText(text: string, maxLength: int): (r: string)
    ensures Utf16Length(text) <= maxLength ==> r == text
    ensures Utf16Length(text) > maxLength ==>
      |r| >= 3 && r[|r| - 3..] == "..." &&
      var m := if maxLength < 0 then 0 else maxLength;
      var kept := r[..|r| - 3];
      && |kept| <= |text| && kept == text[..|kept|]
      && (|kept| < |text| || text == [])
      && (Utf16Length(kept) == m || (|kept| < |text| && Utf16Length(kept) == m - 1 && CodeUnits(text[|kept|]) == 2))
      && Utf16Length(r) <= m + 3
  {
    if Utf16Length(text) <= maxLength then text
    else
      var m := if maxLength < 0 then 0 else maxLength;
      var k := Utf16Prefix(text, m);
      Utf16LengthConcat(text[..k], "...");
      var r := text[..k] + "...";
      assert r[..|r| - 3] == text[..k];
      if k < |text| then
        Utf16LengthConcat(text[..k], [text[k]]);
        assert text[..k + 1] == text[..k] + [text[k]];
        assert [text[k]][1..] == [];
        r
      else
        assert text[..k] == text;
        r
  }

  /** `truncateText("😀😀", 2)` keeps the first emoji: it alone is two code
      units long. */
  lemma TruncateCountsCodeUnits()
    ensures TruncateText("\U{1F600}\U{1F600}", 2) == "\U{1F600}..."
  {
    var t := "\U{1F600}\U{1F600}";
    assert Utf16Length(t[1..]) == 2;
    assert t[..1] == "\U{1F600}";
    assert Utf16Length(t[..2]) == 4;
  }

  const EmptyContentError: string := "O conteúdo não pode estar vazio"
  const TooShortError: string := "O conteúdo deve ter pelo menos 10 caracteres"
  const TooLongError: string := "O conteúdo não pode exceder 10.000 caracteres"
  const MinContentLength: nat := 10
  const MaxContentLength: nat := 10000

  datatype Validation = Validation(isValid: bool, error: Option<string>)

  /** `validateEmailContent`: three rules tried in order; the first two judge
      the trimmed text, the last the text as typed, each by its `.length`
      in UTF-16 code units. */
  function ValidateEmailContent(content: string): (v: Validation)
    ensures v.isValid <==> v.error.None?
    ensures v.isValid <==> Utf16Length(Trim(content)) >= MinContentLength && Utf16Length(content) <= MaxContentLength
    ensures Trim(content) == [] ==> v.error == Some(EmptyContentError)
    ensures Trim(content) != [] && Utf16Length(Trim(content)) < MinContentLength ==> v.error == Some(TooShortError)
    ensures Utf16Length(Trim(content)) >= MinContentLength && Utf16Length(content) > MaxContentLength ==>
      v.error == Some(TooLongError)
  {
    var trimmed := Trim(content);
    if trimmed == [] then Validation(false, Some(EmptyContentError))
    else if Utf16Length(trimmed) < MinContentLength then Validation(false, Some(TooShortError))
    else if Utf16Length(content) > MaxContentLength then Validation(false, Some(TooLongError))
    else Validation(true, None)
  }

  /** Five emoji are ten code units, enough for validation. */
  lemma FiveEmojiAreLongEnough()
    ensures ValidateEmailContent("\U{1F600}\U{1F600}\U{1F600}\U{1F600}\U{1F600}").isValid
  {
    var t := "\U{1F600}\U{1F600}\U{1F600}\U{1F600}\U{1F600}";
    assert ContentStart(t) == 0;
    assert ContentEnd(t, 0) == 5;
    assert Trim(t) == t;
    assert Utf16Length(t) == 10;
  }

  /** The buckets of `formatRelativeTime`. */
  datatype Age = JustNow | MinutesAgo(minutes: nat) | HoursAgo(hours: nat) | DaysAgo(days: nat) | Older

  /** Position of a bucket in the order of increasing age. */
  function AgeRank(a: Age): nat
  {
    match a
    case JustNow => 0
    case MinutesAgo(_) => 1
    case HoursAgo(_) => 2
    case DaysAgo(_) => 3
    case Older => 4
  }

  /** The bucketing of `formatRelativeTime`, given the elapsed milliseconds
      (now minus the date) instead of reading the clock. Each bucket is
      reached by a floor division of the previous unit, as in the source;
      the contract states the ranges in whole seconds. */
  function RelativeAge(elapsedMs: int): (a: Age)
    ensures var s := elapsedMs / 1000;
      && (a.JustNow? <==> s < 60)
      && (a.MinutesAgo? <==> 60 <= s < 3600)
      && (a.HoursAgo? <==> 3600 <= s < 86400)
      && (a.DaysAgo? <==> 86400 <= s < 604800)
      && (a.Older? <==> s >= 604800)
      && (a.MinutesAgo? ==> a.minutes == s / 60 && 1 <= a.minutes < 60)
      && (a.HoursAgo? ==> a.hours == s / 3600 && 1 <= a.hours < 24)
      && (a.DaysAgo? ==> a.days == s / 86400 && 1 <= a.days < 7)
  {
    var seconds := elapsedMs / 1000;
    if seconds < 60 then JustNow
    else
      var minutes := seconds / 60;
      if minutes < 60 then MinutesAgo(minutes)
      else
        var hours := minutes / 60;
        if hours < 24 then HoursAgo(hours)
        else
          var days := hours / 24;
          if days < 7 then DaysAgo(days) else Older
  }

  /** Older dates never fall in a younger bucket, and within one bucket the
      count never decreases. */
  lemma RelativeAgeMonotone(earlierMs: int, laterMs: int)
    requires earlierMs <= laterMs
    ensures AgeRank(RelativeAge(earlierMs)) <= AgeRank(RelativeAge(laterMs))
    ensures RelativeAge(earlierMs).MinutesAgo? && RelativeAge(laterMs).MinutesAgo? ==>
      RelativeAge(earlierMs).minutes <= RelativeAge(laterMs).minutes
    ensures RelativeAge(earlierMs).HoursAgo? && RelativeAge(laterMs).HoursAgo? ==>
      RelativeAge(earlierMs).hours <= RelativeAge(laterMs).hours
    ensures RelativeAge(earlierMs).DaysAgo? && RelativeAge(laterMs).DaysAgo? ==>
      RelativeAge(earlierMs).days <= RelativeAge(laterMs).days
  {
    assert earlierMs / 1000 <= laterMs / 1000;
  }

  /** `formatRelativeTime(date)`; `absoluteDate` stands for `formatDate(date)`. */
  function FormatRelativeTime(elapsedMs: int, absoluteDate: string): (r: string)
    ensures RelativeAge(elapsedMs).JustNow? ==> r == "Agora mesmo"
    ensures RelativeAge(elapsedMs).MinutesAgo? ==> r == NatToString(RelativeAge(elapsedMs).minutes) + " min atrás"
    ensures RelativeAge(elapsedMs).HoursAgo? ==> r == NatToString(RelativeAge(elapsedMs).hours) + "h atrás"
    ensures RelativeAge(elapsedMs).DaysAgo? ==> r == NatToString(RelativeAge(elapsedMs).days) + "d atrás"
    ensures RelativeAge(elapsedMs).Older? ==> r == absoluteDate
  {
    match RelativeAge(elapsedMs)
    case JustNow => "Agora mesmo"
    case MinutesAgo(m) => NatToString(m) + " min atrás"
    case HoursAgo(h) => NatToString(h) + "h atrás"
    case DaysAgo(d) => NatToString(d) + "d atrás"
    case Older => absoluteDate
  }

  predicate IsDigit(c: char) { '0' <= c <= '9' }

  /** The decimal rendering of a non-negative integer (`n.toString()`). */
  function NatToString(n: nat): (r: string)
    ensures |r| >= 1
    ensures forall i :: 0 <= i < |r| ==> IsDigit(r[i])
    ensures r[0] == '0' ==> n == 0
  {
    if n < 10 then [('0' as int + n) as char]
    else NatToString(n / 10) + [('0' as int + n % 10) as char]
  }

  /** `n.toString()` for any integer. */
  function IntToString(n: int): (r: string)
    ensures n >= 0 ==> r == NatToString(n)
    ensures n < 0 ==> r == "-" + NatToString(-n)
  {
    if n >= 0 then NatToString(n) else "-" + NatToString(-n)
  }

  /** The value of a string of decimal digits; the partner of NatToString. */
  function DecimalValue(s: string): nat
    requires forall i :: 0 <= i < |s| ==> IsDigit(s[i])
  {
    if s == [] then 0
    else
      var last := s[|s| - 1];
      assert IsDigit(last);
      10 * DecimalValue(s[..|s| - 1]) + (last as int - '0' as int)
  }

  /** Reading back the rendering of n gives n. */
  lemma {:induction false} NatToStringRoundTrip(n: nat)
    ensures DecimalValue(NatToString(n)) == n
  {
    var r := NatToString(n);
    if n >= 10 {
      NatToStringRoundTrip(n / 10);
      assert r[..|r| - 1] == NatToString(n / 10);
    }
  }

  /** Distinct integers render to distinct strings. */
  lemma IntToStringInjective(a: int, b: int)
    requires IntToString(a) == IntToString(b)
    ensures a == b
  {
    if a >= 0 && b >= 0 {
      NatToStringRoundTrip(a);
      NatToStringRoundTrip(b);
    } else if a < 0 && b < 0 {
      assert NatToString(-a) == IntToString(a)[1..];
      assert NatToString(-b) == IntToString(b)[1..];
      NatToStringRoundTrip(-a);
      NatToStringRoundTrip(-b);
    }
  }
}
