/**
 * The Luhn mod-10 check digit test (ISO/IEC 7812-1, Annex B) that order
 * numbers must pass before they are registered or withdrawn against.
 */
module Luhn {
  import opened Strconv

  /**
   * What one digit adds to the sum: itself, or, when it is doubled, twice
   * itself with 9 taken off when that exceeds 9 (the sum of the digits of
   * the product).
   */
  function Contribution(d: nat, doubled: bool): (r: nat)
    requires d <= 9
    ensures r <= 9
  {
    if doubled && 2 * d > 9 then 2 * d - 9 else if doubled then 2 * d else d
  }

  /**
   * Whether the digit at index j of an n-digit number is doubled: every
   * second digit, counting from the rightmost one, which is not doubled.
   */
  predicate DoubledAt(n: nat, j: nat)
    requires j < n
  {
    (n - 1 - j) % 2 == 1
  }

  /** Every byte from index k to the end is a decimal digit. */
  predicate DigitsFrom(s: string, k: nat)
    requires k <= |s|
  {
    forall j :: k <= j < |s| ==> IsDigit(s[j])
  }

  /** The weighted sum of the digits from index k to the end of s. */
  function SumFrom(s: string, k: nat): (r: nat)
    requires k <= |s| && DigitsFrom(s, k)
    ensures r <= 9 * (|s| - k)
    decreases |s| - k
  {
    if k == |s| then 0
    else Contribution(DigitValue(s[k]), DoubledAt(|s|, k)) + SumFrom(s, k + 1)
  }

  /** The weighted digit sum of a whole number. */
  function CheckSum(s: string): nat
    requires AllDigits(s)
  {
    SumFrom(s, 0)
  }

  /** A number passes when it is made of digits only and its weighted sum is a multiple of 10. */
  predicate LuhnValid(s: string) {
    AllDigits(s) && CheckSum(s) % 10 == 0
  }

  /**
   * utils.LuhnAlgorith: walks the number from its last byte to its first,
   * giving up on the first byte that is not a digit and doubling every
   * second digit.
   */
  method LuhnAlgorith(orderNumber: string) returns (ok: bool)
    ensures ok == LuhnValid(orderNumber)
  {
    var sum := 0;
    var double := false;
    var i := |orderNumber| - 1;
    while i >= 0
      invariant -1 <= i < |orderNumber|
      invariant DigitsFrom(orderNumber, i + 1)
      invariant sum == SumFrom(orderNumber, i + 1)
      invariant double == DoubledAt(|orderNumber| + 1, i + 1)
    {
      var r := orderNumber[i];
      if r < '0' || r > '9' {
        return false;
      }
      var digit := DigitValue(r);
      if double {
        digit := digit * 2;
        if digit > 9 {
          digit := digit - 9;
        }
      }
      sum := sum + digit;
      double := !double;
      i := i - 1;
    }
    return sum % 10 == 0;
  }

  /** Any non-digit byte rejects the number, whatever the other bytes are. */
  lemma NonDigitRejects(s: string, j: nat)
    requires j < |s| && !IsDigit(s[j])
    ensures !LuhnValid(s)
  {
  }

  /** The empty string passes: the loop never runs and the sum is 0. */
  lemma EmptyPasses()
    ensures LuhnValid("")
  {
  }

  /** With doubling fixed, distinct digits contribute distinct amounts: the doubling map permutes 0..9. */
  lemma ContributionInjective(d1: nat, d2: nat, doubled: bool)
    requires d1 <= 9 && d2 <= 9 && d1 != d2
    ensures Contribution(d1, doubled) != Contribution(d2, doubled)
  {
  }

  /** Replacing a digit left of index k leaves the sum from k unchanged. */
  lemma {:induction false} SumFromUnchangedRight(s: string, j: nat, c: char, k: nat)
    requires AllDigits(s) && j < k <= |s| && IsDigit(c)
    ensures DigitsFrom(s[j := c], k)
    ensures SumFrom(s[j := c], k) == SumFrom(s, k)
    decreases |s| - k
  {
    if k < |s| {
      SumFromUnchangedRight(s, j, c, k + 1);
    }
  }

  /** Replacing the digit at index j changes the sum by the difference of the two contributions. */
  lemma {:induction false} SumFromUpdate(s: string, j: nat, c: char, k: nat)
    requires AllDigits(s) && k <= j < |s| && IsDigit(c)
    ensures DigitsFrom(s[j := c], k)
    ensures SumFrom(s[j := c], k) - Contribution(DigitValue(c), DoubledAt(|s|, j))
         == SumFrom(s, k) - Contribution(DigitValue(s[j]), DoubledAt(|s|, j))
    decreases j - k
  {
    if k == j {
      SumFromUnchangedRight(s, j, c, k + 1);
    } else {
      SumFromUpdate(s, j, c, k + 1);
    }
  }

  /** Changing any single digit of an accepted number makes it rejected. */
  lemma SingleDigitErrorDetected(s: string, j: nat, c: char)
    requires LuhnValid(s) && j < |s| && IsDigit(c) && c != s[j]
    ensures !LuhnValid(s[j := c])
  {
    var w := DoubledAt(|s|, j);
    SumFromUpdate(s, j, c, 0);
    ContributionInjective(DigitValue(c), DigitValue(s[j]), w);
    var a: int, b: int := CheckSum(s[j := c]), CheckSum(s);
    assert a - b == Contribution(DigitValue(c), w) - Contribution(DigitValue(s[j]), w);
    MultiplesOfTenDifference(a, b);
  }

  lemma MultiplesOfTenDifference(a: int, b: int)
    ensures a % 10 == 0 && b % 10 == 0 ==> (a - b) % 10 == 0
  {
    if a % 10 == 0 && b % 10 == 0 {
      assert a - b == 10 * (a / 10 - b / 10);
    }
  }

  /** Test table: "79927398713" is accepted (sum 70). */
  lemma AcceptsSample()
    ensures LuhnValid("79927398713")
  {
    var s := "79927398713";
    assert AllDigits(s);
    assert SumFrom(s, 10) == 3;
    assert SumFrom(s, 9) == 5;
    assert SumFrom(s, 8) == 12;
    assert SumFrom(s, 7) == 19;
    assert SumFrom(s, 6) == 28;
    assert SumFrom(s, 5) == 34;
    assert SumFrom(s, 4) == 41;
    assert SumFrom(s, 3) == 45;
    assert SumFrom(s, 2) == 54;
    assert SumFrom(s, 1) == 63;
    assert SumFrom(s, 0) == 70;
  }

  /** Test table: "1234567812345670" is accepted (sum 60). */
  lemma AcceptsSixteenDigits()
    ensures LuhnValid("1234567812345670")
  {
    var s := "1234567812345670";
    assert AllDigits(s);
    assert SumFrom(s, 15) == 0;
    assert SumFrom(s, 14) == 5;
    assert SumFrom(s, 13) == 11;
    assert SumFrom(s, 12) == 12;
    assert SumFrom(s, 11) == 16;
    assert SumFrom(s, 10) == 22;
    assert SumFrom(s, 9) == 24;
    assert SumFrom(s, 8) == 26;
    assert SumFrom(s, 7) == 34;
    assert SumFrom(s, 6) == 39;
    assert SumFrom(s, 5) == 45;
    assert SumFrom(s, 4) == 46;
    assert SumFrom(s, 3) == 50;
    assert SumFrom(s, 2) == 56;
    assert SumFrom(s, 1) == 58;
    assert SumFrom(s, 0) == 60;
  }

  /** Test table: "0" is accepted. */
  lemma AcceptsZero()
    ensures LuhnValid("0")
  {
    var s := "0";
    assert SumFrom(s, 0) == 0;
  }

  /** Test table: "059" is accepted (sum 10). */
  lemma AcceptsShort()
    ensures LuhnValid("059")
  {
    var s := "059";
    assert AllDigits(s);
    assert SumFrom(s, 2) == 9;
    assert SumFrom(s, 1) == 10;
    assert SumFrom(s, 0) == 10;
  }

  /** Test table: "79927398710" is rejected (sum 67). */
  lemma RejectsWrongCheckDigit()
    ensures !LuhnValid("79927398710")
  {
    var s := "79927398710";
    assert AllDigits(s);
    assert SumFrom(s, 10) == 0;
    assert SumFrom(s, 9) == 2;
    assert SumFrom(s, 8) == 9;
    assert SumFrom(s, 7) == 16;
    assert SumFrom(s, 6) == 25;
    assert SumFrom(s, 5) == 31;
    assert SumFrom(s, 4) == 38;
    assert SumFrom(s, 3) == 42;
    assert SumFrom(s, 2) == 51;
    assert SumFrom(s, 1) == 60;
    assert SumFrom(s, 0) == 67;
  }

  /** Test table: "abcdefg" and "059a" are rejected for their non-digit bytes. */
  lemma RejectsNonDigits()
    ensures !LuhnValid("abcdefg")
    ensures !LuhnValid("059a")
  {
    NonDigitRejects("abcdefg", 0);
    NonDigitRejects("059a", 3);
  }
}
