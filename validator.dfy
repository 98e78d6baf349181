/**
 * The pure helpers of internal/validator/validator.go: the digit check applied to passport
 * series and numbers, and the rendering of a task duration as hours and minutes.
 */
module Validator {
  import opened Wrappers
  import opened Strconv

  /** The two errors `ValidateDigits` can return. */
  datatype DigitsError = WrongLength(expected: int) | NotADigit

  /** The character loop of `ValidateDigits`: walk the input, stop at the first non-digit. */
  function ScanDigits(s: string): (ok: bool)
    ensures ok <==> AllDigits(s)
    decreases |s|
  {
    if s == [] then true
    else if !IsDigit(s[0]) then false
    else ScanDigits(s[1..])
  }

  /**
   * `ValidateDigits(input, ln)`: the length is checked first, then every character must be a
   * decimal digit; no error exactly when both hold.
   */
  function ValidateDigits(input: string, ln: int): (r: Option<DigitsError>)
    ensures r.None? <==> |input| == ln && AllDigits(input)
    ensures |input| != ln ==> r == Some(WrongLength(ln))
    ensures |input| == ln && !AllDigits(input) ==> r == Some(NotADigit)
  {
    if |input| != ln then Some(WrongLength(ln))
    else if !ScanDigits(input) then Some(NotADigit)
    else None
  }

  /** `fmt`'s `%02d` on a non-negative value: at least two digits, never truncated. */
  function Pad2(n: nat): (s: string)
    ensures 2 <= |s| && AllDigits(s)
    ensures n < 100 ==> |s| == 2
    ensures n >= 10 ==> s == Digits(n)
  {
    if n < 10 then "0" + Digits(n) else Digits(n)
  }

  lemma ValueOfPad2(n: nat)
    ensures Value(Pad2(n)) == n
  {
    ValueOfDigits(n);
    if n < 10 { ValueLeadingZero(Digits(n)); }
  }

  const HoursMark: string := " ч "
  const MinutesMark: string := " м"

  /**
   * `SecondToString`: whole minutes, whole hours of those, and the minutes left over, printed
   * as `"%02d ч %02d м"`. Go truncates toward zero; for the non-negative durations the model
   * admits that is Dafny's division.
   */
  function SecondToString(seconds: int): (s: string)
    requires seconds >= 0
    ensures s == Pad2(seconds / 3600) + HoursMark + Pad2((seconds / 60) % 60) + MinutesMark
  {
    HoursAndMinutes(seconds);
    var min := seconds / 60;
    var hours := min / 60;
    var minutes := min - hours * 60;
    Pad2(hours) + HoursMark + Pad2(minutes) + MinutesMark
  }

  /**
   * The hours and minutes `SecondToString` computes are the whole hours of the duration and
   * the whole minutes of the last hour; the seconds left over are dropped, never rounded.
   */
  lemma HoursAndMinutes(seconds: int)
    requires seconds >= 0
    ensures var min := seconds / 60;
            var hours := min / 60;
            var minutes := min - hours * 60;
            && hours == seconds / 3600
            && minutes == (seconds / 60) % 60
            && 0 <= minutes < 60
            && hours * 3600 + minutes * 60 <= seconds < hours * 3600 + minutes * 60 + 60
  {
    var m, r := seconds / 60, seconds % 60;
    assert seconds == 60 * m + r && 0 <= r < 60;
    var h, q := m / 60, m % 60;
    assert m == 60 * h + q && 0 <= q < 60;
    assert seconds == 3600 * h + (60 * q + r);
    assert 0 <= 60 * q + r < 3600;
    assert seconds / 3600 == h;
  }

  /** Reads hours and minutes back from a rendered duration. */
  function ParseDuration(s: string): Option<(nat, nat)>
  {
    if |s| < 9 then None
    else
      var hh := s[..|s| - 7];
      var mm := s[|s| - 4..|s| - 2];
      if s[|s| - 7..|s| - 4] == HoursMark && s[|s| - 2..] == MinutesMark && AllDigits(hh) && AllDigits(mm)
      then Some((Value(hh), Value(mm)))
      else None
  }

  /** Where the fields of a rendered duration sit, counted from its end. */
  lemma RenderedFields(hh: string, mm: string)
    requires |mm| == 2
    ensures var s := hh + HoursMark + mm + MinutesMark;
            && |s| == |hh| + 7
            && s[..|s| - 7] == hh
            && s[|s| - 7..|s| - 4] == HoursMark
            && s[|s| - 4..|s| - 2] == mm
            && s[|s| - 2..] == MinutesMark
  {
    var s := hh + HoursMark + mm + MinutesMark;
    assert s[..|hh|] == hh;
    assert s[|hh|..|hh| + 3] == HoursMark;
    assert s[|hh| + 3..|hh| + 5] == mm;
    assert s[|hh| + 5..] == MinutesMark;
  }

  /** A rendered duration splits back into its hours and minutes fields. */
  lemma ParseRendered(hh: string, mm: string)
    requires 2 <= |hh| && AllDigits(hh) && |mm| == 2 && AllDigits(mm)
    ensures ParseDuration(hh + HoursMark + mm + MinutesMark) == Some((Value(hh), Value(mm)))
  {
    RenderedFields(hh, mm);
  }

  /** The rendering loses nothing but the leftover seconds. */
  lemma {:induction false} SecondToStringRoundTrip(seconds: int)
    requires seconds >= 0
    ensures ParseDuration(SecondToString(seconds)) == Some((seconds / 3600, (seconds / 60) % 60))
  {
    HoursAndMinutes(seconds);
    var hours := seconds / 60 / 60;
    var minutes := seconds / 60 - hours * 60;
    ParseRendered(Pad2(hours), Pad2(minutes));
    ValueOfPad2(hours);
    ValueOfPad2(minutes);
  }

  /** The hours field is the full decimal text of the hours, padded to two digits, never cut. */
  lemma HoursNotTruncated(seconds: int)
    requires seconds >= 0
    ensures var hours := seconds / 3600;
            var s := SecondToString(seconds);
            && (hours >= 10 ==> s[..|Digits(hours)|] == Digits(hours))
            && (hours < 10 ==> s[..2] == "0" + Digits(hours))
  {
    HoursAndMinutes(seconds);
  }

  lemma SecondToStringZero()
    ensures SecondToString(0) == "00 ч 00 м"
  {
    assert SecondToString(0) == Pad2(0) + HoursMark + Pad2(0) + MinutesMark;
    assert Digits(0) == "0";
  }

  lemma SecondToStringHourMinute()
    ensures SecondToString(3661) == "01 ч 01 м"
  {
    assert 3661 / 60 / 60 == 1;
    assert SecondToString(3661) == Pad2(1) + HoursMark + Pad2(1) + MinutesMark;
    assert Digits(1) == "1";
  }

  lemma SecondToStringTwoHours()
    ensures SecondToString(7200) == "02 ч 00 м"
  {
    assert 7200 / 60 / 60 == 2;
    assert SecondToString(7200) == Pad2(2) + HoursMark + Pad2(0) + MinutesMark;
    assert Digits(0) == "0";
    assert Digits(2) == "2";
  }

  /** Hours are not capped at two digits. */
  lemma SecondToStringHundredHours()
    ensures SecondToString(360000) == "100 ч 00 м"
  {
    assert 360000 / 60 / 60 == 100;
    assert SecondToString(360000) == Pad2(100) + HoursMark + Pad2(0) + MinutesMark;
    assert Digits(10) == "10";
    assert Digits(100) == "100";
    assert Digits(0) == "0";
  }
}
