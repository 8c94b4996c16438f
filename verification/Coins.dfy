/** Coin strings such as "1000upokt". */
module Coins {
  import opened Decimal

  const UPOKT := "upokt"

  function TrimSuffix(s: string, suffix: string): string {
    if |s| >= |suffix| && s[|s| - |suffix|..] == suffix then s[..|s| - |suffix|] else s
  }

  /** `parseCoinAmount`: everything unparseable is worth 0. */
  function ParseCoinAmount(coin: string): (amount: int)
    ensures IsInt64(amount)
  {
    if coin == "" then 0
    else match ParseInt64(TrimSuffix(coin, UPOKT))
      case Some(n) => n
      case None => 0
  }

  /** Every int64 amount survives being written as a coin; larger ones read as 0. */
  lemma ParseOfCoin(n: int)
    ensures ParseCoinAmount(FormatInt(n) + UPOKT) == if IsInt64(n) then n else 0
  {
    var coin := FormatInt(n) + UPOKT;
    assert coin[|coin| - |UPOKT|..] == UPOKT && coin[..|coin| - |UPOKT|] == FormatInt(n);
    ParseOfFormat(n);
  }

  /** The unit may be missing. */
  lemma ParseOfBareAmount(n: int)
    ensures ParseCoinAmount(FormatInt(n)) == if IsInt64(n) then n else 0
  {
    var coin := FormatInt(n);
    ValueOfDigits(if n < 0 then -n else n);
    assert coin[|coin| - 1] in Digits(if n < 0 then -n else n);
    assert |coin| >= |UPOKT| ==> coin[|coin| - |UPOKT|..][|UPOKT| - 1] == coin[|coin| - 1];
    assert coin != "";
    ParseOfFormat(n);
  }
}
