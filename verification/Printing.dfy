/** uPOKT amounts as the Discord messages show them. */
module Printing {
  import opened Seqs
  import opened Decimal

  const UPOKT_PER_POKT := 1_000_000
  const SUFFIX := " POKT"

  /** The reference: groups of exactly three digits behind the first group. */
  function Grouped(s: string): string {
    if |s| <= 3 then s else Grouped(s[..|s| - 3]) + "," + s[|s| - 3..]
  }

  /** What the loop has appended after `i` characters. */
  ghost function Emitted(s: string, i: nat): string
    requires i <= |s|
  {
    if i == 0 then ""
    else Emitted(s, i - 1) + (if i - 1 > 0 && (|s| - (i - 1)) % 3 == 0 then "," else "") + [s[i - 1]]
  }

  lemma {:induction false} EmittedPrefix(s: string, i: nat)
    requires |s| > 3 && i <= |s| - 3
    ensures Emitted(s, i) == Emitted(s[..|s| - 3], i)
  {
    if i > 0 {
      EmittedPrefix(s, i - 1);
    }
  }

  lemma GroupAppended(before: string, s: string)
    requires |s| == 3
    ensures before + "," + [s[0]] + "" + [s[1]] + "" + [s[2]] == before + "," + s
  {
  }

  lemma EmittedGroup(s: string)
    requires |s| > 3
    ensures var n := |s|; Emitted(s, n) == Emitted(s, n - 3) + "," + [s[n - 3]] + "" + [s[n - 2]] + "" + [s[n - 1]]
  {
    var n := |s|;
    assert Emitted(s, n - 2) == Emitted(s, n - 3) + "," + [s[n - 3]];
    assert Emitted(s, n - 1) == Emitted(s, n - 2) + "" + [s[n - 2]];
  }

  lemma GroupedStep(s: string)
    ensures |s| <= 3 ==> Grouped(s) == s == s[..|s|]
    ensures |s| > 3 ==> Grouped(s) == Grouped(s[..|s| - 3]) + "," + s[|s| - 3..]
  {
  }

  lemma {:induction false} EmittedShort(s: string, i: nat)
    requires i <= |s| <= 3
    ensures Emitted(s, i) == s[..i]
  {
    if i > 0 {
      EmittedShort(s, i - 1);
      assert s[..i] == s[..i - 1] + [s[i - 1]];
    }
  }

  lemma {:induction false} EmittedIsGrouped(s: string)
    ensures Emitted(s, |s|) == Grouped(s)
  {
    hide Emitted, Grouped;
    var n := |s|;
    GroupedStep(s);
    if n <= 3 {
      EmittedShort(s, n);
    } else {
      var head, tail := s[..n - 3], s[n - 3..];
      EmittedIsGrouped(head);
      EmittedPrefix(s, n - 3);
      EmittedGroup(s);
      GroupAppended(Emitted(s, n - 3), tail);
    }
  }

  method FormatWithCommas(n: int) returns (result: string)
    ensures result == Grouped(FormatInt(n))
  {
    var s := FormatInt(n);
    if |s| <= 3 {
      return s;
    }
    result := "";
    for i := 0 to |s|
      invariant result == Emitted(s, i)
    {
      if i > 0 && (|s| - i) % 3 == 0 {
        result := result + ",";
      }
      result := result + [s[i]];
    }
    EmittedIsGrouped(s);
  }

  function NoComma(): char -> bool { c => c != ',' }

  lemma {:induction false} CommasRemoved(s: string)
    requires ',' !in s
    ensures Filter(Grouped(s), NoComma()) == s
  {
    hide Filter;
    if |s| <= 3 {
      FilterAll(s, NoComma());
    } else {
      var head, tail := s[..|s| - 3], s[|s| - 3..];
      CommasRemoved(head);
      FilterAll(tail, NoComma());
      FilterNone(",", NoComma());
      FilterConcat(Grouped(head), ",", NoComma());
      FilterConcat(Grouped(head) + ",", tail, NoComma());
      assert head + [] + tail == s;
    }
  }

  lemma {:induction false} GroupedLength(s: string)
    requires s != ""
    ensures |Grouped(s)| == |s| + (|s| - 1) / 3
  {
    if |s| > 3 {
      GroupedLength(s[..|s| - 3]);
    }
  }

  /** Position `i` from the right of two parts. */
  lemma FromRight(head: string, tail: string, i: nat)
    requires |tail| == 3
    ensures var t := head + "," + tail;
      && |t| == |head| + 4
      && (i < 3 ==> t[|t| - 1 - i] == tail[2 - i]) && t[|t| - 4] == ','
      && (4 <= i < |t| ==> t[|t| - 1 - i] == head[|head| - 1 - (i - 4)])
  {
  }

  /** Counted from the right, every fourth character is a comma and nothing else is. */
  lemma {:induction false} CommaPositions(s: string, i: nat)
    requires ',' !in s && s != "" && i < |Grouped(s)|
    ensures Grouped(s)[|Grouped(s)| - 1 - i] == ',' <==> i % 4 == 3
    decreases |s|
  {
    hide Grouped;
    GroupedStep(s);
    if |s| > 3 {
      var head, tail := s[..|s| - 3], s[|s| - 3..];
      FromRight(Grouped(head), tail, i);
      if i >= 4 {
        CommaPositions(head, i - 4);
      } else if i < 3 {
        assert tail[2 - i] in s;
      }
    } else {
      assert s[|s| - 1 - i] in s;
    }
  }

  /** Without its commas the printed number is the plain decimal numeral, digit by digit. */
  lemma CommasAreOnlySeparators(n: nat)
    ensures Filter(Grouped(FormatInt(n)), NoComma()) == Digits(n)
    ensures IsNumeral(Digits(n)) && Value(Digits(n)) == n
  {
    ValueOfDigits(n);
    CommasRemoved(Digits(n));
  }

  // Amounts.

  function Zeros(n: nat): string {
    if n == 0 then "" else "0" + Zeros(n - 1)
  }

  function PadLeft(s: string, width: nat): string {
    if |s| < width then Zeros(width - |s|) + s else s
  }

  /** `%06d`, whose width includes the sign. */
  function Padded6(n: int): string {
    if n < 0 then "-" + PadLeft(Digits(-n), 5) else PadLeft(Digits(n), 6)
  }

  // Go divides towards zero.
  function Quotient(a: int, b: int): int
    requires b > 0
  {
    if a < 0 then -(-a / b) else a / b
  }

  function Remainder(a: int, b: int): int
    requires b > 0
  {
    a - b * Quotient(a, b)
  }

  /** `formatPOKT`, with the int64 negation wrapping as in Go. */
  function POKT(upokt: int): string {
    var magnitude := if upokt < 0 then Wrap64(-upokt) else upokt;
    (if upokt < 0 then "-" else "")
    + Grouped(FormatInt(Quotient(magnitude, UPOKT_PER_POKT))) + "."
    + Padded6(Remainder(magnitude, UPOKT_PER_POKT)) + SUFFIX
  }

  lemma Prefixes(whole: string, frac: string)
    ensures "" + whole + "." + frac + SUFFIX == whole + "." + frac + SUFFIX
    ensures "-" + whole + "." + frac + SUFFIX == "-" + (whole + "." + frac + SUFFIX)
  {
  }

  method FormatPOKT(upokt: int) returns (result: string)
    requires IsInt64(upokt)
    ensures result == POKT(upokt)
  {
    hide Grouped, Digits, PadLeft, Padded6, Wrap64;
    var negative, amount := upokt < 0, upokt;
    if negative {
      amount := Wrap64(-amount);
    }
    var whole, frac := Quotient(amount, UPOKT_PER_POKT), Remainder(amount, UPOKT_PER_POKT);
    var wholeStr := FormatWithCommas(whole);
    result := wholeStr + "." + Padded6(frac) + SUFFIX;
    Prefixes(wholeStr, Padded6(frac));
    if negative {
      result := "-" + result;
    }
  }

  function ReadAmount(s: string): Option<int> {
    if |s| < 13 then None
    else
      var n := |s|;
      var whole, point, frac, unit := Filter(s[..n - 12], NoComma()), s[n - 12], s[n - 11..n - 5], s[n - 5..];
      if IsNumeral(whole) && point == '.' && IsNumeral(frac) && unit == " POKT"
      then Some(1_000_000 * Value(whole) + Value(frac))
      else None
  }

  /** A reader of what `formatPOKT` prints: an optional sign, digits with commas, a point,
      six digits and the unit. */
  function ReadPOKT(s: string): Option<int> {
    if |s| > 0 && s[0] == '-' then
      match ReadAmount(s[1..])
      case Some(n) => Some(-n)
      case None => None
    else ReadAmount(s)
  }

  lemma {:induction false} ZerosSnoc(k: nat)
    ensures "0" + Zeros(k) == Zeros(k) + "0"
  {
    if k > 0 {
      ZerosSnoc(k - 1);
      assert "0" + Zeros(k) == "0" + ("0" + Zeros(k - 1)) == "0" + (Zeros(k - 1) + "0") == ("0" + Zeros(k - 1)) + "0";
    }
  }

  lemma {:induction false} ZerosAreDigits(k: nat, s: string)
    requires forall c :: c in s ==> IsDigit(c)
    ensures forall c :: c in Zeros(k) + s ==> IsDigit(c)
    ensures |Zeros(k)| == k
    ensures Value(Zeros(k) + s) == Value(s)
    decreases k, |s|
  {
    if k == 0 {
      assert Zeros(k) + s == s;
    } else if |s| == 0 {
      ZerosAreDigits(k - 1, s);
      ZerosSnoc(k - 1);
      assert Zeros(k) + s == Zeros(k - 1) + "0";
      assert Zeros(k - 1) + s == Zeros(k - 1);
    } else {
      var init := s[..|s| - 1];
      assert forall c :: c in init ==> c in s;
      ZerosAreDigits(k, init);
      assert (Zeros(k) + s)[..k + |s| - 1] == Zeros(k) + init;
      assert Zeros(k) + s == Zeros(k) + init + [s[|s| - 1]];
    }
  }

  function Power10(k: nat): nat {
    if k == 0 then 1 else 10 * Power10(k - 1)
  }

  lemma {:induction false} DigitCount(n: nat, k: nat, bound: nat)
    requires k >= 1 && bound == Power10(k) && n < bound
    ensures |Digits(n)| <= k
  {
    if k == 1 {
    } else if n >= 10 {
      DigitCount(n / 10, k - 1, Power10(k - 1));
    }
  }

  /** A fraction of a POKT prints as exactly six digits. */
  lemma FractionPrints(frac: nat)
    requires frac < UPOKT_PER_POKT
    ensures |Padded6(frac)| == 6 && IsNumeral(Padded6(frac)) && Value(Padded6(frac)) == frac
  {
    assert Power10(6) == 1_000_000 by {
      assert Power10(3) == 1000;
    }
    DigitCount(frac, 6, UPOKT_PER_POKT);
    ValueOfDigits(frac);
    ZerosAreDigits(6 - |Digits(frac)|, Digits(frac));
  }

  /** The fields of a printed amount, at fixed distances from its end. */
  lemma Fields(g: string, f: string)
    requires |f| == 6
    ensures var s := g + "." + f + SUFFIX; var n := |s|;
      n == |g| + 12 && s[..n - 12] == g && s[n - 12] == '.' && s[n - 11..n - 5] == f && s[n - 5..] == SUFFIX
  {
  }

  function Unsigned(amount: nat): string {
    Grouped(Digits(amount / UPOKT_PER_POKT)) + "." + Padded6(amount % UPOKT_PER_POKT) + SUFFIX
  }

  lemma {:induction false} GroupedStart(s: string)
    requires |s| > 0
    ensures |Grouped(s)| > 0 && Grouped(s)[0] == s[0]
  {
    if |s| > 3 {
      GroupedStart(s[..|s| - 3]);
    }
  }

  lemma AmountReadsBack(amount: nat)
    ensures |Unsigned(amount)| > 0 && Unsigned(amount)[0] != '-'
    ensures ReadAmount(Unsigned(amount)) == Some(amount)
  {
    hide Grouped, Digits, PadLeft, Padded6, Filter, Value;
    var whole, frac := amount / UPOKT_PER_POKT, amount % UPOKT_PER_POKT;
    FractionPrints(frac);
    CommasAreOnlySeparators(whole);
    GroupedStart(Digits(whole));
    assert Digits(whole)[0] in Digits(whole);
    Fields(Grouped(Digits(whole)), Padded6(frac));
  }

  lemma PrintedAmount(upokt: int)
    requires INT64_MIN < upokt <= INT64_MAX
    ensures POKT(upokt) == if upokt < 0 then "-" + Unsigned(-upokt) else Unsigned(upokt)
  {
    hide Grouped, Digits, PadLeft, Padded6;
    var amount := if upokt < 0 then -upokt else upokt;
    Prefixes(Grouped(Digits(amount / UPOKT_PER_POKT)), Padded6(amount % UPOKT_PER_POKT));
  }

  lemma SecondSign(g: string, f: string)
    requires |f| == 7 && f[0] == '-'
    ensures var s := g + "." + f + SUFFIX; |s| == |g| + 13 && s[|s| - 12] == '-'
  {
  }

  lemma SixDigits()
    ensures |Digits(775808)| == 6
  {
  }

  lemma SmallestIsUnreadable()
    ensures ReadPOKT(POKT(INT64_MIN)) == None
  {
    hide Grouped, Filter, Value, Digits;
    assert Wrap64(-INT64_MIN) == INT64_MIN;
    var whole, frac := Quotient(INT64_MIN, UPOKT_PER_POKT), Remainder(INT64_MIN, UPOKT_PER_POKT);
    assert frac == -775808;
    SixDigits();
    var g, f := Grouped(FormatInt(whole)), Padded6(frac);
    Prefixes(g, f);
    SecondSign(g, f);
    assert ("-" + (g + "." + f + SUFFIX))[1..] == g + "." + f + SUFFIX;
  }

  /** Reading a printed amount recovers every int64 except the smallest one, whose negation
      overflows: its fraction is printed with a second minus sign. */
  lemma POKTReadsBackIff(upokt: int)
    requires IsInt64(upokt)
    ensures ReadPOKT(POKT(upokt)) == Some(upokt) <==> upokt != INT64_MIN
  {
    hide Grouped, Digits, PadLeft, Padded6, ReadAmount, POKT, Unsigned;
    if upokt == INT64_MIN {
      SmallestIsUnreadable();
    } else {
      var amount := if upokt < 0 then -upokt else upokt;
      AmountReadsBack(amount);
      PrintedAmount(upokt);
      assert ("-" + Unsigned(amount))[1..] == Unsigned(amount);
    }
  }
}
