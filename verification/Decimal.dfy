/** Decimal text of integers: `std::to_string` / `std::to_chars` on one side, `std::from_chars`
    applied to a whole string on the other. */
module Decimal {
  import opened Base

  predicate IsDigit(c: char) {
    '0' <= c <= '9'
  }

  predicate AllDigits(s: Bytes) {
    forall i :: 0 <= i < |s| ==> IsDigit(s[i])
  }

  function DigitChar(d: nat): (c: char)
    requires d < 10
    ensures IsDigit(c) && DigitValue(c) == d
  {
    ('0' as int + d) as char
  }

  function DigitValue(c: char): (d: nat)
    requires IsDigit(c)
    ensures d < 10
  {
    c as int - '0' as int
  }

  function Digits(n: nat): (s: Bytes)
    ensures s != [] && AllDigits(s)
  {
    if n < 10 then [DigitChar(n)] else Digits(n / 10) + [DigitChar(n % 10)]
  }

  function ValueOf(s: Bytes): (n: nat)
    requires AllDigits(s)
  {
    if s == [] then 0 else ValueOf(s[..|s| - 1]) * 10 + DigitValue(s[|s| - 1])
  }

  lemma {:induction false} ValueOfDigits(n: nat)
    ensures ValueOf(Digits(n)) == n
  {
    var s := Digits(n);
    if n >= 10 {
      ValueOfDigits(n / 10);
      assert s[..|s| - 1] == Digits(n / 10);
    } else {
      assert s[..0] == [];
    }
  }

  function ToText(n: int): (s: Bytes)
    ensures s != [] && IsDigit(s[|s| - 1])
    ensures n >= 0 ==> AllDigits(s)
  {
    if n < 0 then ['-'] + Digits(-n) else Digits(n)
  }

  /** `parse_int<int64_t>`: an optional minus sign, then digits only, in range. */
  function ParseInt64(s: Bytes): (r: Option<int>)
    ensures r.Some? ==> IsInt64(r.value) && s != [] && IsDigit(s[|s| - 1])
  {
    var negative := s != [] && s[0] == '-';
    var body := if negative then s[1..] else s;
    if body == [] || !AllDigits(body) then None
    else
      var v: int := if negative then 0 - ValueOf(body) else ValueOf(body);
      assert s[|s| - 1] == body[|body| - 1];
      if IsInt64(v) then Some(v) else None
  }

  /** `parse_int<uint64_t>`: no sign is accepted. */
  function ParseUInt64(s: Bytes): (r: Option<nat>)
    ensures r.Some? ==> r.value < UINT64_SIZE
  {
    if s == [] || !AllDigits(s) || ValueOf(s) >= UINT64_SIZE then None else Some(ValueOf(s))
  }

  lemma ParseToText(n: int)
    requires IsInt64(n)
    ensures ParseInt64(ToText(n)) == Some(n)
  {
    if n < 0 {
      ValueOfDigits(-n);
      assert ToText(n)[1..] == Digits(-n);
    } else {
      ValueOfDigits(n);
      assert IsDigit(Digits(n)[0]);
    }
  }

  /** Exactly the texts that are read as 64-bit integers: a minus sign or none, then digits and nothing else, in range. */
  lemma ReadableIntegers(s: Bytes)
    ensures ParseInt64(s).Some? <==>
      (s != [] && AllDigits(s) && ValueOf(s) <= INT64_MAX) ||
      (|s| > 1 && s[0] == '-' && AllDigits(s[1..]) && ValueOf(s[1..]) <= -INT64_MIN)
  {
    if s != [] && s[0] == '-' {
      assert !IsDigit(s[0]);
    }
  }

  function Pow10(k: nat): (n: nat) {
    if k == 0 then 1 else 10 * Pow10(k - 1)
  }

  lemma {:induction false} DigitsLength(n: nat, k: nat)
    requires 1 <= k && n < Pow10(k)
    ensures |Digits(n)| <= k
    decreases k
  {
    if n >= 10 { DigitsLength(n / 10, k - 1); }
  }

  /** A 64-bit integer has at most 19 digits. */
  lemma Int64Length(n: nat)
    requires n <= INT64_MAX
    ensures |Digits(n)| <= 19
  {
    assert Pow10(4) == 10000;
    assert Pow10(8) == 1_0000_0000;
    assert Pow10(12) == 1_0000_0000_0000;
    assert Pow10(16) == 1_0000_0000_0000_0000;
    assert Pow10(19) == 1000_0000_0000_0000_0000;
    DigitsLength(n, 19);
  }

  lemma ParseToTextUnsigned(n: nat)
    requires n < UINT64_SIZE
    ensures ParseUInt64(ToText(n)) == Some(n)
  {
    ValueOfDigits(n);
  }

  /** The text of a parsed value needs no sign when it does not start with one. */
  lemma ParsedSign(s: Bytes)
    requires ParseInt64(s).Some? && '-' !in s
    ensures ParseInt64(s).value >= 0
  {
    assert s[0] in s;
  }
}
