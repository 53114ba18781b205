/**
 * Decimal integer parsing as Go's strconv.Atoi does it on a 64-bit platform,
 * used for the user id taken from the token subject and for the Retry-After
 * header of the accrual authority, and decimal formatting (strconv.Itoa) as
 * its inverse.
 */
module Strconv {
  import opened Wrappers

  const MinInt64: int := -0x8000_0000_0000_0000
  const MaxInt64: int := 0x7FFF_FFFF_FFFF_FFFF

  predicate IsDigit(c: char) {
    '0' <= c <= '9'
  }

  predicate AllDigits(s: string) {
    forall i :: 0 <= i < |s| ==> IsDigit(s[i])
  }

  function DigitValue(c: char): (d: nat)
    requires IsDigit(c)
    ensures d <= 9
  {
    c as int - '0' as int
  }

  function DigitChar(d: nat): (c: char)
    requires d <= 9
    ensures IsDigit(c) && DigitValue(c) == d
  {
    ('0' as int + d) as char
  }

  predicate IsSign(c: char) {
    c == '+' || c == '-'
  }

  /** The value of a string of decimal digits, most significant digit first. */
  function DecimalValue(s: string): nat
    requires AllDigits(s)
  {
    if s == [] then 0 else DecimalValue(s[..|s| - 1]) * 10 + DigitValue(s[|s| - 1])
  }

  /**
   * strconv.Atoi: an optional '+' or '-', then one or more decimal digits,
   * and a value that fits in a Go int (64 bits). Anything else is an error.
   */
  function Atoi(s: string): (r: Option<int>)
    ensures r.Some? ==> MinInt64 <= r.value <= MaxInt64
    ensures r.Some? ==> |s| > 0 && (IsDigit(s[0]) || (IsSign(s[0]) && |s| > 1))
    ensures r.Some? ==> forall i :: 0 < i < |s| ==> IsDigit(s[i])
    ensures r.Some? && r.value < 0 ==> s[0] == '-'
  {
    var digits := if |s| > 0 && IsSign(s[0]) then s[1..] else s;
    if digits == [] || !AllDigits(digits) then None
    else
      var v: int := if s[0] == '-' then -(DecimalValue(digits) as int) else DecimalValue(digits);
      if MinInt64 <= v <= MaxInt64 then Some(v) else None
  }

  /** The shortest decimal representation of a natural number. */
  function FormatNat(n: nat): (s: string)
    ensures |s| > 0 && AllDigits(s)
    ensures n > 0 ==> s[0] != '0'
  {
    if n < 10 then [DigitChar(n)] else FormatNat(n / 10) + [DigitChar(n % 10)]
  }

  /** strconv.Itoa */
  function FormatInt(n: int): string {
    if n < 0 then "-" + FormatNat(-n) else FormatNat(n)
  }

  lemma {:induction false} DecimalValueOfFormatNat(n: nat)
    ensures DecimalValue(FormatNat(n)) == n
  {
    var s := FormatNat(n);
    if n >= 10 {
      assert s[..|s| - 1] == FormatNat(n / 10);
      DecimalValueOfFormatNat(n / 10);
    }
  }

  /** Atoi inverts Itoa on every Go int: a user id formatted into a token parses back. */
  lemma AtoiOfFormatInt(n: int)
    requires MinInt64 <= n <= MaxInt64
    ensures Atoi(FormatInt(n)) == Some(n)
  {
    var s := FormatInt(n);
    if n < 0 {
      var digits := FormatNat(-n);
      assert s[0] == '-' && s[1..] == digits;
      DecimalValueOfFormatNat(-n);
      assert DecimalValue(digits) == -n;
    } else {
      assert !IsSign(s[0]);
      DecimalValueOfFormatNat(n);
    }
  }

  /**
   * A digit string, with leading zeros, a '+' or a '-' in front, parses to
   * its decimal value when that fits in a Go int.
   */
  lemma AtoiOfDigits(d: string)
    requires d != [] && AllDigits(d) && DecimalValue(d) <= MaxInt64
    ensures Atoi(d) == Some(DecimalValue(d))
    ensures Atoi("+" + d) == Some(DecimalValue(d))
    ensures Atoi("-" + d) == Some(-(DecimalValue(d) as int))
  {
    assert ("+" + d)[1..] == d;
    assert ("-" + d)[1..] == d;
  }

  /** A digit string whose value does not fit in a Go int fails, with or without a sign. */
  lemma AtoiOutOfRange(d: string)
    requires d != [] && AllDigits(d) && DecimalValue(d) > MaxInt64
    ensures Atoi(d) == None
    ensures Atoi("+" + d) == None
    ensures DecimalValue(d) > MaxInt64 + 1 ==> Atoi("-" + d) == None
  {
    assert ("+" + d)[1..] == d;
    assert ("-" + d)[1..] == d;
  }

  /**
   * A character that is not a decimal digit, anywhere but in a leading sign
   * position, makes Atoi fail: the HTTP-date form of Retry-After, an empty
   * header and a fractional number of seconds are all errors.
   */
  lemma AtoiRejectsNonDigit(s: string, j: nat)
    requires j < |s| && !IsDigit(s[j])
    requires j > 0 || !IsSign(s[j])
    ensures Atoi(s) == None
  {
    if j > 0 && IsSign(s[0]) {
      assert !IsDigit(s[1..][j - 1]);
    }
  }
}
