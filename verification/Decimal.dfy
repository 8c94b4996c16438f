/** Decimal numerals and 64-bit integers, as Go prints and parses them. */
module Decimal {
  import opened Seqs

  const INT64_MAX: int := 0x7FFF_FFFF_FFFF_FFFF
  const INT64_MIN: int := -0x8000_0000_0000_0000
  const TWO64: int := 0x1_0000_0000_0000_0000

  predicate IsInt64(n: int) { INT64_MIN <= n <= INT64_MAX }

  /** Two's-complement wrap-around of an int64 result. */
  function Wrap64(n: int): (r: int)
    ensures IsInt64(r)
    ensures IsInt64(n) ==> r == n
  {
    var low := n % TWO64;
    if low > INT64_MAX then low - TWO64 else low
  }

  /** Wrapping loses multiples of 2^64 and nothing else. */
  lemma WrapIsCongruent(n: int)
    ensures (Wrap64(n) - n) % TWO64 == 0
  {
    assert n % TWO64 - n == TWO64 * -(n / TWO64);
  }

  predicate IsDigit(c: char) { '0' <= c <= '9' }

  function DigitChar(d: nat): char
    requires d < 10
  {
    '0' + d as char
  }

  function DigitValue(c: char): nat
    requires IsDigit(c)
  {
    (c - '0') as nat
  }

  /** `%d` of a non-negative integer. */
  function Digits(n: nat): (s: string)
    ensures |s| > 0
  {
    if n < 10 then [DigitChar(n)] else Digits(n / 10) + [DigitChar(n % 10)]
  }

  predicate IsNumeral(s: string) {
    |s| > 0 && forall c :: c in s ==> IsDigit(c)
  }

  function Value(s: string): nat
    requires forall c :: c in s ==> IsDigit(c)
  {
    if |s| == 0 then 0 else 10 * Value(s[..|s| - 1]) + DigitValue(s[|s| - 1])
  }

  lemma {:induction false} ValueOfDigits(n: nat)
    ensures IsNumeral(Digits(n)) && Value(Digits(n)) == n
  {
    if n >= 10 {
      ValueOfDigits(n / 10);
      assert Digits(n)[..|Digits(n)| - 1] == Digits(n / 10);
    } else {
      assert [DigitChar(n)][..0] == [];
    }
  }

  /** `%d` of any integer. */
  function FormatInt(n: int): string {
    if n < 0 then "-" + Digits(-n) else Digits(n)
  }

  /** `strconv.ParseInt(s, 10, 64)`; None is its error. */
  function ParseInt64(s: string): (r: Option<int>)
    ensures r.Some? ==> IsInt64(r.value)
  {
    var negative := |s| > 0 && s[0] == '-';
    var digits := if |s| > 0 && (s[0] == '-' || s[0] == '+') then s[1..] else s;
    if !IsNumeral(digits) then None
    else
      var magnitude: int := Value(digits);
      var n := if negative then -magnitude else magnitude;
      if IsInt64(n) then Some(n) else None
  }

  /** Printing and parsing again gives the number back exactly when it fits into 64 bits. */
  lemma ParseOfFormat(n: int)
    ensures ParseInt64(FormatInt(n)) == if IsInt64(n) then Some(n) else None
  {
    var magnitude := if n < 0 then -n else n;
    ValueOfDigits(magnitude);
    var s := FormatInt(n);
    if n < 0 {
      assert s[0] == '-' && s[1..] == Digits(-n);
    } else {
      assert s[0] in s && IsDigit(s[0]);
    }
  }

  /** What can be parsed: an optional sign and decimal digits, leading zeros included, within 64 bits. */
  lemma ParseOfNumeral(sign: string, digits: string)
    requires sign == "" || sign == "+" || sign == "-"
    requires IsNumeral(digits)
    ensures var magnitude: int := Value(digits);
      var n := if sign == "-" then -magnitude else magnitude;
      ParseInt64(sign + digits) == if IsInt64(n) then Some(n) else None
  {
    var s := sign + digits;
    assert digits[0] in digits && IsDigit(digits[0]);
    if sign == "" {
      assert s == digits;
    } else {
      assert s[1..] == digits;
    }
  }

  /** And nothing else. */
  lemma ParsedIsNumeral(s: string)
    requires ParseInt64(s).Some?
    ensures IsNumeral(s) || (|s| > 1 && (s[0] == '+' || s[0] == '-') && IsNumeral(s[1..]))
  {
  }
}
