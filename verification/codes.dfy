/** SPXW option codes (`f"US.SPXW{expiry_str}C{strike}000"` and its put twin in
    src/production_strategy_complete.py). A code is held as the three parts it is built
    from; `CodeText` is the string the broker sees, and `CodeTextInjective` shows that,
    for expiries of one width, comparing codes by their parts is comparing their texts. */
module OptionCodes {
  import opened Decimal

  datatype Side = CallSide | PutSide

  datatype OptionCode = OptionCode(expiry: string, side: Side, strike: int)

  const CodePrefix: string := "US.SPXW"

  function SideLetter(side: Side): char
  {
    if side == CallSide then 'C' else 'P'
  }

  /** The text of a code: prefix, expiry, C or P, the strike in decimal, then "000". */
  function CodeText(c: OptionCode): (s: string)
    ensures |s| == |CodePrefix| + |c.expiry| + 1 + |IntToDecimal(c.strike)| + 3
    ensures s[..|CodePrefix|] == CodePrefix && s[|CodePrefix|..|CodePrefix| + |c.expiry|] == c.expiry
    ensures s[|CodePrefix| + |c.expiry|] == SideLetter(c.side)
    ensures s[|CodePrefix| + |c.expiry| + 1..|s| - 3] == IntToDecimal(c.strike) && s[|s| - 3..] == "000"
  {
    CodePrefix + c.expiry + [SideLetter(c.side)] + IntToDecimal(c.strike) + "000"
  }

  /** The call code of a strike. */
  function CallCode(expiry: string, strike: int): OptionCode
  {
    OptionCode(expiry, CallSide, strike)
  }

  /** The put code of a strike. */
  function PutCode(expiry: string, strike: int): OptionCode
  {
    OptionCode(expiry, PutSide, strike)
  }

  /** The call and put texts of one strike differ in exactly one character, the C/P letter. */
  lemma CodesDifferOnlyInLetter(expiry: string, strike: int)
    ensures |CodeText(CallCode(expiry, strike))| == |CodeText(PutCode(expiry, strike))|
    ensures CodeText(CallCode(expiry, strike))[|CodePrefix| + |expiry|] == 'C'
    ensures CodeText(PutCode(expiry, strike))[|CodePrefix| + |expiry|] == 'P'
    ensures forall i :: 0 <= i < |CodeText(CallCode(expiry, strike))| && i != |CodePrefix| + |expiry| ==>
              CodeText(CallCode(expiry, strike))[i] == CodeText(PutCode(expiry, strike))[i]
  {
  }

  /** For expiries of one width (the bot's are always six digits), two codes have the same
      text exactly when they have the same expiry, side and strike. */
  lemma CodeTextInjective(a: OptionCode, b: OptionCode)
    requires |a.expiry| == |b.expiry|
    ensures CodeText(a) == CodeText(b) <==> a == b
  {
    if CodeText(a) == CodeText(b) {
      var s, n := CodeText(a), |CodePrefix| + |a.expiry|;
      assert a.expiry == s[|CodePrefix|..n] == b.expiry;
      assert SideLetter(a.side) == s[n] == SideLetter(b.side);
      assert IntToDecimal(a.strike) == s[n + 1..|s| - 3] == IntToDecimal(b.strike);
      IntToDecimalInjective(a.strike, b.strike);
    }
  }
}
