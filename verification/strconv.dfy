/** Decimal integers as the operator stores them: strconv.FormatInt and strconv.ParseInt
    with base 10 and 64 bits. */
module Strconv {
  import opened Wrappers

  const MAX_INT64 := 0x7FFF_FFFF_FFFF_FFFF
  const MIN_INT64 := -0x8000_0000_0000_0000

  predicate IsInt64(n: int) {
    MIN_INT64 <= n <= MAX_INT64
  }

  predicate IsDigit(c: char) {
    '0' <= c <= '9'
  }

  function FormatNat(n: nat): (s: string)
    ensures |s| > 0 && forall i :: 0 <= i < |s| ==> IsDigit(s[i])
  {
    (if n < 10 then [] else FormatNat(n / 10)) + ['0' + (n % 10) as char]
  }

  function FormatInt(n: int): string {
    if n < 0 then ['-'] + FormatNat(-n) else FormatNat(n)
  }

  /** The value of a string of digits; None on the empty string and on any other character. */
  function ParseDigits(s: string): Option<nat> {
    if |s| == 0 || !IsDigit(s[|s| - 1]) then None
    else
      var last := (s[|s| - 1] - '0') as nat;
      if |s| == 1 then Some(last)
      else
        match ParseDigits(s[..|s| - 1])
        case None => None
        case Some(n) => Some(10 * n + last)
  }

  /** A signed integer that fits in `bits` bits; a leading sign and leading zeros are accepted. */
  function ParseIntIn(s: string, low: int, high: int): Option<int> {
    var negative := |s| > 0 && s[0] == '-';
    var digits := if |s| > 0 && (s[0] == '-' || s[0] == '+') then s[1..] else s;
    match ParseDigits(digits)
    case None => None
    case Some(n) =>
      var value: int := if negative then 0 - n else n;
      if low <= value <= high then Some(value) else None
  }

  function ParseInt(s: string): Option<int> {
    ParseIntIn(s, MIN_INT64, MAX_INT64)
  }

  lemma {:induction false} ParseDigitsFormat(n: nat)
    ensures ParseDigits(FormatNat(n)) == Some(n)
  {
    var s := FormatNat(n);
    assert s[|s| - 1] == '0' + (n % 10) as char;
    if n >= 10 {
      ParseDigitsFormat(n / 10);
      assert s[..|s| - 1] == FormatNat(n / 10);
    }
  }

  /** Every id the operator writes reads back as the same number. */
  lemma FormatParse(n: int)
    requires IsInt64(n)
    ensures ParseInt(FormatInt(n)) == Some(n)
  {
    var s := FormatInt(n);
    if n < 0 {
      ParseDigitsFormat(-n);
      assert s[1..] == FormatNat(-n);
    } else {
      ParseDigitsFormat(n);
      assert IsDigit(s[0]);
    }
  }

  /** Parsing forgets signs and leading zeros: a string that parses need not be the one
      FormatInt writes, so "canonical" is more than "parses". */
  lemma ParseIsNotInjective()
    ensures ParseInt("+7") == ParseInt("07") == ParseInt("7") == Some(7)
    ensures FormatInt(7) == "7"
  {
    assert "+7"[1..] == "7";
    assert "07"[..1] == "0";
    assert ParseDigits("0") == Some(0);
  }

  // -------------------------------------------------------------- which strings parse

  function Power(n: nat): nat {
    if n == 0 then 1 else 10 * Power(n - 1)
  }

  /** The value of digits by position. */
  function ByPosition(s: string): int {
    if s == [] then 0 else (s[0] as int - '0' as int) * Power(|s| - 1) + ByPosition(s[1..])
  }

  lemma {:induction false} ByPositionLast(s: string, c: char)
    ensures ByPosition(s + [c]) == 10 * ByPosition(s) + (c as int - '0' as int)
  {
    if s == [] {
      assert s + [c] == [c];
    } else {
      assert (s + [c])[1..] == s[1..] + [c];
      ByPositionLast(s[1..], c);
    }
  }

  ghost predicate Digits(s: string) {
    s != [] && forall i :: 0 <= i < |s| ==> IsDigit(s[i])
  }

  /** Exactly the non-empty strings of digits parse, as their value by position. */
  lemma {:induction false} ParseDigitsExact(s: string)
    ensures ParseDigits(s).Some? <==> Digits(s)
    ensures Digits(s) ==> ParseDigits(s).value == ByPosition(s)
  {
    if s != [] {
      var init, last := s[..|s| - 1], s[|s| - 1];
      assert s == init + [last];
      ByPositionLast(init, last);
      if init != [] {
        ParseDigitsExact(init);
      }
    }
  }

  lemma SignIsNoDigit(s: string)
    requires s != [] && (s[0] == '+' || s[0] == '-')
    ensures !Digits(s)
  {
    assert !IsDigit(s[0]);
  }

  /** A signed integer: an optional sign and digits, as the bounds allow. */
  lemma ParseExact(s: string, low: int, high: int, n: int)
    ensures ParseIntIn(s, low, high) == Some(n)
       <==> && low <= n <= high
            && ((Digits(s) && n == ByPosition(s))
                || (s != [] && s[0] == '+' && Digits(s[1..]) && n == ByPosition(s[1..]))
                || (s != [] && s[0] == '-' && Digits(s[1..]) && n == -ByPosition(s[1..])))
  {
    if s != [] && (s[0] == '+' || s[0] == '-') {
      SignIsNoDigit(s);
      ParseDigitsExact(s[1..]);
    } else {
      ParseDigitsExact(s);
    }
  }

  lemma {:induction false} NatIsPlain(n: nat)
    ensures n > 0 ==> FormatNat(n)[0] != '0'
  {
    if n >= 10 {
      NatIsPlain(n / 10);
    }
  }

  /** FormatInt writes no sign but a minus, and no leading zero. */
  lemma FormatIsPlain(n: int)
    ensures
      var s := FormatInt(n);
      if n < 0 then s[0] == '-' && s[1] != '0' else IsDigit(s[0]) && (n > 0 ==> s[0] != '0')
  {
    NatIsPlain(if n < 0 then -n else n);
  }
}
