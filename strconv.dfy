/**
 * Decimal text conversions used by the service: Go's `strconv.Itoa` (placeholder numbers of
 * the user query, `%02d` formatting) and `strconv.Atoi` (identifiers and pagination taken from
 * URL path values). Characters are ASCII; Go's 64-bit `int` is made explicit by `IsInt64`.
 */
module Strconv {
  import opened Wrappers

  predicate IsDigit(c: char) { '0' <= c <= '9' }

  predicate AllDigits(s: string) { forall i :: 0 <= i < |s| ==> IsDigit(s[i]) }

  function DigitChar(d: nat): (c: char)
    requires d < 10
    ensures IsDigit(c)
  {
    (48 + d) as char
  }

  function DigitValue(c: char): (d: nat)
    requires IsDigit(c)
    ensures d < 10
  {
    c as int - 48
  }

  /** The decimal text of `n` without leading zeros (`strconv.Itoa` on a non-negative value). */
  function Digits(n: nat): (s: string)
    ensures 1 <= |s| && AllDigits(s)
    ensures |s| == 1 <==> n < 10
    ensures n < 100 ==> |s| <= 2
    decreases n
  {
    if n < 10 then [DigitChar(n)] else Digits(n / 10) + [DigitChar(n % 10)]
  }

  /** The number a string of decimal digits denotes (leading zeros allowed). */
  function Value(s: string): nat
    requires AllDigits(s)
    decreases |s|
  {
    if s == [] then 0 else Value(s[..|s| - 1]) * 10 + DigitValue(s[|s| - 1])
  }

  lemma {:induction false} ValueOfDigits(n: nat)
    ensures Value(Digits(n)) == n
    decreases n
  {
    if n >= 10 {
      var s := Digits(n);
      assert s[..|s| - 1] == Digits(n / 10);
      ValueOfDigits(n / 10);
    }
  }

  /** A leading zero does not change the value of a digit string. */
  lemma {:induction false} ValueLeadingZero(s: string)
    requires AllDigits(s)
    ensures AllDigits("0" + s) && Value("0" + s) == Value(s)
    decreases |s|
  {
    var t := "0" + s;
    assert AllDigits(t) by {
      forall i | 0 <= i < |t| ensures IsDigit(t[i]) {
        if i > 0 { assert t[i] == s[i - 1]; }
      }
    }
    if s != [] {
      assert t[..|t| - 1] == "0" + s[..|s| - 1];
      ValueLeadingZero(s[..|s| - 1]);
    }
  }

  /** `strconv.Itoa`. */
  function Itoa(n: int): (s: string)
    ensures 1 <= |s|
    ensures n >= 0 ==> s == Digits(n)
    ensures n < 0 ==> s[0] == '-' && s[1..] == Digits(-n)
  {
    if n < 0 then "-" + Digits(-n) else Digits(n)
  }

  const MinInt64: int := -0x8000_0000_0000_0000
  const MaxInt64: int := 0x7fff_ffff_ffff_ffff

  /** Values of Go's `int` on a 64-bit platform. */
  predicate IsInt64(n: int) { MinInt64 <= n <= MaxInt64 }

  /**
   * `strconv.Atoi`: an optional `+` or `-`, then at least one decimal digit, and the value
   * must fit in 64 bits; anything else (empty text, a sign alone, another character, an
   * out-of-range value) is an error, here `None`.
   */
  function Atoi(s: string): (r: Option<int>)
    ensures r.Some? ==> IsInt64(r.value) && Writes(s, r.value)
  {
    if s == "" then None
    else
      var negative := s[0] == '-';
      var body := if s[0] == '+' || s[0] == '-' then s[1..] else s;
      if body == "" || !AllDigits(body) then None
      else
        var v: int := if negative then 0 - Value(body) as int else Value(body);
        if IsInt64(v) then Some(v) else None
  }

  /** `s` is an optional `+` or `-` followed by at least one decimal digit, and writes the value `v`. */
  predicate Writes(s: string, v: int)
  {
    || (s != "" && AllDigits(s) && v == Value(s))
    || (|s| >= 2 && s[0] == '+' && AllDigits(s[1..]) && v == Value(s[1..]))
    || (|s| >= 2 && s[0] == '-' && AllDigits(s[1..]) && v == 0 - Value(s[1..]) as int)
  }

  /**
   * What `Atoi` accepts: exactly the texts that write a 64-bit value with an optional sign and
   * only digits, read as that value (leading zeros and a `+` allowed).
   */
  lemma AtoiAccepts(s: string, v: int)
    ensures Atoi(s) == Some(v) <==> Writes(s, v) && IsInt64(v)
    ensures Atoi(s).Some? ==> IsInt64(Atoi(s).value) && 1 <= |s|
    ensures Atoi(s).Some? ==> forall i :: 0 < i < |s| ==> IsDigit(s[i])
    ensures Atoi(s).Some? ==> IsDigit(s[0]) || s[0] == '+' || s[0] == '-'
  {
    if Atoi(s).Some? {
      var body := if s[0] == '+' || s[0] == '-' then s[1..] else s;
      forall i | 0 < i < |s| ensures IsDigit(s[i]) {
        if s[0] == '+' || s[0] == '-' { assert s[i] == body[i - 1]; } else { assert s[i] == body[i]; }
      }
    }
  }

  /** Leading zeros and a plus sign are read as Go reads them; a sign alone or a letter is refused. */
  lemma AtoiExamples()
    ensures Atoi("007") == Some(7)
    ensures Atoi("+5") == Some(5)
    ensures Atoi("-12") == Some(-12)
    ensures Atoi("") == None && Atoi("-") == None && Atoi("1a") == None
  {
    assert "0"[..0] == "" && Value("0") == 0;
    assert "00"[..1] == "0" && Value("00") == 0;
    assert "007"[..2] == "00" && Value("007") == 7;
    assert "+5"[1..] == "5";
    assert "-12"[1..] == "12" && "12"[..1] == "1";
    assert !IsDigit("1a"[1]);
  }

  /** `Atoi` reads back every 64-bit value `Itoa` writes. */
  lemma AtoiItoa(n: int)
    requires IsInt64(n)
    ensures Atoi(Itoa(n)) == Some(n)
  {
    var s := Itoa(n);
    if n < 0 {
      ValueOfDigits(-n);
      assert s[1..] == Digits(-n);
    } else {
      ValueOfDigits(n);
    }
  }
}
