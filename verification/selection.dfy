/** Strike window, option codes, quote validation, liquidity scoring and the
    choice of one straddle (`find_best_straddle` and `StraddleQuote` in
    src/production_strategy_complete.py). */
module Selection {
  import opened Common
  import opened OptionCodes

  // ---------------------------------------------------------------- strikes

  /** `get_strike_interval`: $5 below 4000, $10 from 4000 up to (not including) 5000, $25 from 5000. */
  function StrikeInterval(price: real): (interval: int)
    ensures interval == 5 <==> price < 4000.0
    ensures interval == 10 <==> 4000.0 <= price < 5000.0
    ensures interval == 25 <==> 5000.0 <= price
  {
    if price < 1000.0 then 5
    else if price < 4000.0 then 5
    else if price < 5000.0 then 10
    else 25
  }

  predicate GridInterval(interval: int)
  {
    interval == 5 || interval == 10 || interval == 25
  }

  /** A product with one of the intervals is a multiple of it. */
  lemma MultipleOfInterval(q: int, interval: int)
    requires GridInterval(interval)
    ensures (q * interval) % interval == 0
  {
    if interval == 5 {
      assert q * interval == q * 5;
    } else if interval == 10 {
      assert q * interval == q * 10;
    } else {
      assert q * interval == q * 25;
    }
  }

  /** A quotient rounded to within half a unit gives a multiple within half an interval. */
  lemma NearestMultiple(price: real, interval: int, q: int)
    requires GridInterval(interval) && Abs(price / interval as real - q as real) <= 0.5
    ensures Abs((q * interval) as real - price) <= interval as real / 2.0
  {
    if interval == 5 {
      assert (q * interval) as real == q as real * 5.0 && price / interval as real == price / 5.0;
    } else if interval == 10 {
      assert (q * interval) as real == q as real * 10.0 && price / interval as real == price / 10.0;
    } else {
      assert (q * interval) as real == q as real * 25.0 && price / interval as real == price / 25.0;
    }
  }

  /** `round(spx_price / strike_interval) * strike_interval`: the at-the-money strike, a multiple
      of the interval nearest the price. */
  function BaseStrike(price: real): (base: int)
    ensures base % StrikeInterval(price) == 0
    ensures Abs(base as real - price) <= StrikeInterval(price) as real / 2.0
  {
    var interval := StrikeInterval(price);
    var q := RoundHalfEven(price / interval as real);
    MultipleOfInterval(q, interval);
    NearestMultiple(price, interval, q);
    q * interval
  }

  /** `base_strike + i * strike_interval`: the strike `j` steps from the base. */
  function GridStrike(base: int, interval: int, j: int): int
  {
    base + j * interval
  }

  /** One more step adds one interval. */
  lemma GridNext(base: int, interval: int, j: int)
    requires GridInterval(interval)
    ensures GridStrike(base, interval, j + 1) == GridStrike(base, interval, j) + interval
  {
    if interval == 5 {
      assert (j + 1) * interval == j * 5 + 5;
    } else if interval == 10 {
      assert (j + 1) * interval == j * 10 + 10;
    } else {
      assert (j + 1) * interval == j * 25 + 25;
    }
  }

  /** No strike of the window lies below the tenth step down. */
  lemma GridAboveLowest(base: int, interval: int, j: int)
    requires GridInterval(interval) && -10 <= j
    ensures GridStrike(base, interval, j) >= base - 10 * interval
  {
    if interval == 5 {
      assert j * interval == j * 5;
    } else if interval == 10 {
      assert j * interval == j * 10;
    } else {
      assert j * interval == j * 25;
    }
  }

  /** Steps from a multiple of the interval land on multiples of it. */
  lemma GridStrikeOnGrid(base: int, interval: int, j: int)
    requires GridInterval(interval) && base % interval == 0
    ensures GridStrike(base, interval, j) % interval == 0
  {
    var m := base / interval;
    assert base == m * interval;
    assert GridStrike(base, interval, j) == (m + j) * interval;
    MultipleOfInterval(m + j, interval);
  }

  /** A strike of the window: positive and at most ten steps from the base. */
  predicate InWindow(price: real, strike: int)
  {
    && strike > 0
    && exists j :: -10 <= j <= 10 && strike == GridStrike(BaseStrike(price), StrikeInterval(price), j)
  }

  predicate StrictlyIncreasing(s: seq<int>)
  {
    forall i, j :: 0 <= i < j < |s| ==> s[i] < s[j]
  }

  /** The grid strikes for j in -10 .. hi-1 that are positive, in increasing j. */
  function StrikesBelow(base: int, interval: int, hi: int): seq<int>
    requires -10 <= hi <= 11
    decreases hi + 10
  {
    if hi == -10 then []
    else
      var strike := GridStrike(base, interval, hi - 1);
      StrikesBelow(base, interval, hi - 1) + (if strike > 0 then [strike] else [])
  }

  /** The 21-strike window, less its non-positive strikes. */
  function StrikeWindow(price: real): seq<int>
  {
    StrikesBelow(BaseStrike(price), StrikeInterval(price), 11)
  }

  /** The strikes below index `hi`: at most `hi + 10` of them, all positive, the last one at
      index `hi - 1`. */
  lemma {:induction false} StrikesBelowLength(base: int, interval: int, hi: int)
    requires GridInterval(interval) && -10 <= hi <= 11
    ensures var s := StrikesBelow(base, interval, hi);
      && |s| <= hi + 10
      && (forall k :: 0 <= k < |s| ==> s[k] > 0)
      && (|s| > 0 ==> s[|s| - 1] == GridStrike(base, interval, hi - 1))
    decreases hi + 10
  {
    if hi > -10 {
      StrikesBelowLength(base, interval, hi - 1);
      GridNext(base, interval, hi - 2);
    }
  }

  /** When the lowest strike is positive, all `hi + 10` strikes are kept, the k-th at index k - 10. */
  lemma {:induction false} StrikesBelowFull(base: int, interval: int, hi: int)
    requires GridInterval(interval) && -10 <= hi <= 11 && base > 10 * interval
    ensures var s := StrikesBelow(base, interval, hi);
      |s| == hi + 10 && forall k :: 0 <= k < |s| ==> s[k] == GridStrike(base, interval, k - 10)
    decreases hi + 10
  {
    if hi > -10 {
      StrikesBelowFull(base, interval, hi - 1);
      GridAboveLowest(base, interval, hi - 1);
    }
  }

  /** The strikes below index `hi` are a step apart. */
  lemma {:induction false} StrikesBelowSteps(base: int, interval: int, hi: int)
    requires GridInterval(interval) && -10 <= hi <= 11
    ensures var s := StrikesBelow(base, interval, hi);
      forall k :: 0 < k < |s| ==> s[k] == s[k - 1] + interval
    decreases hi + 10
  {
    if hi > -10 {
      StrikesBelowSteps(base, interval, hi - 1);
      StrikesBelowLength(base, interval, hi - 1);
      GridNext(base, interval, hi - 2);
    }
  }

  /** A strike below index `hi` is positive and `j` steps from the base for some -10 <= j < hi. */
  lemma {:induction false} StrikesBelowMembers(base: int, interval: int, hi: int, x: int)
    requires -10 <= hi <= 11
    requires x in StrikesBelow(base, interval, hi)
    ensures x > 0
    ensures exists j :: -10 <= j < hi && x == GridStrike(base, interval, j)
    decreases hi + 10
  {
    if x in StrikesBelow(base, interval, hi - 1) {
      StrikesBelowMembers(base, interval, hi - 1, x);
    }
  }

  /** Every positive grid strike `j` steps from the base, -10 <= j < hi, is a strike below index `hi`. */
  lemma {:induction false} StrikesBelowComplete(base: int, interval: int, hi: int, j: int)
    requires -10 <= j < hi <= 11
    requires GridStrike(base, interval, j) > 0
    ensures GridStrike(base, interval, j) in StrikesBelow(base, interval, hi)
    decreases hi + 10
  {
    if j < hi - 1 {
      StrikesBelowComplete(base, interval, hi - 1, j);
    }
  }

  /** The strike list of `find_best_straddle`: base + i*interval for i in -10..10, keeping the positive ones. */
  method BuildStrikes(price: real) returns (strikes: seq<int>)
    ensures strikes == StrikeWindow(price)
  {
    var interval := StrikeInterval(price);
    var base := BaseStrike(price);
    strikes := [];
    for i := -10 to 11
      invariant strikes == StrikesBelow(base, interval, i)
    {
      var strike := base + i * interval;
      if strike > 0 {
        strikes := strikes + [strike];
      }
    }
  }

  /** The window holds exactly the positive strikes at most ten steps from the base. */
  lemma StrikeWindowIsWindow(price: real)
    ensures forall x :: x in StrikeWindow(price) <==> InWindow(price, x)
  {
    var interval, base := StrikeInterval(price), BaseStrike(price);
    forall x ensures x in StrikeWindow(price) <==> InWindow(price, x) {
      if x in StrikeWindow(price) {
        StrikesBelowMembers(base, interval, 11, x);
      }
      if InWindow(price, x) {
        var j :| -10 <= j <= 10 && x == GridStrike(base, interval, j);
        StrikesBelowComplete(base, interval, 11, j);
      }
    }
  }

  /** The window holds at most 21 positive strikes, increasing by the interval, each a multiple of it. */
  lemma StrikeWindowGrid(price: real)
    ensures var s, interval := StrikeWindow(price), StrikeInterval(price);
      && |s| <= 21
      && (forall k :: 0 <= k < |s| ==> s[k] > 0 && s[k] % interval == 0)
      && (forall k :: 0 < k < |s| ==> s[k] == s[k - 1] + interval)
      && StrictlyIncreasing(s)
  {
    var interval, base := StrikeInterval(price), BaseStrike(price);
    var s := StrikeWindow(price);
    StrikesBelowLength(base, interval, 11);
    StrikesBelowSteps(base, interval, 11);
    forall k | 0 <= k < |s| ensures s[k] % interval == 0 {
      StrikesBelowMembers(base, interval, 11, s[k]);
      var j :| -10 <= j < 11 && s[k] == GridStrike(base, interval, j);
      GridStrikeOnGrid(base, interval, j);
    }
    StepsAreIncreasing(s, interval);
  }

  /** When the lowest strike of the window is positive, all 21 are kept and the base is the middle one. */
  lemma StrikeWindowFull(price: real)
    requires BaseStrike(price) > 10 * StrikeInterval(price)
    ensures |StrikeWindow(price)| == 21 && StrikeWindow(price)[10] == BaseStrike(price)
  {
    var interval, base := StrikeInterval(price), BaseStrike(price);
    StrikesBelowFull(base, interval, 11);
  }

  /** A sequence that rises by a positive step at every index is strictly increasing. */
  lemma StepsAreIncreasing(s: seq<int>, step: int)
    requires step > 0
    requires forall k :: 0 < k < |s| ==> s[k] == s[k - 1] + step
    ensures StrictlyIncreasing(s)
  {
    forall i, j | 0 <= i < j < |s| ensures s[i] < s[j] {
      StepsRise(s, step, i, j);
    }
  }

  lemma {:induction false} StepsRise(s: seq<int>, step: int, i: int, j: int)
    requires step > 0 && 0 <= i < j < |s|
    requires forall k :: 0 < k < |s| ==> s[k] == s[k - 1] + step
    ensures s[i] < s[j]
    decreases j - i
  {
    if i < j - 1 {
      StepsRise(s, step, i, j - 1);
    }
  }

  /** Every price the price gate lets through (>= 3000) keeps all 21 strikes. */
  lemma GatedPriceKeepsFullWindow(price: real)
    requires 3000.0 <= price
    ensures BaseStrike(price) > 10 * StrikeInterval(price)
  {
  }

  // ---------------------------------------------------------------- option codes

  /** `all_codes`: the call code then the put code of each strike, in strike order. */
  function CodeList(expiry: string, strikes: seq<int>): seq<OptionCode>
  {
    if |strikes| == 0 then []
    else
      var s := strikes[|strikes| - 1];
      CodeList(expiry, strikes[..|strikes| - 1]) + [CallCode(expiry, s), PutCode(expiry, s)]
  }

  /** `strike_map`: each code of the request list to its side and strike. */
  function StrikeMap(expiry: string, strikes: seq<int>): map<OptionCode, (Side, int)>
  {
    if |strikes| == 0 then map[]
    else
      var s := strikes[|strikes| - 1];
      StrikeMap(expiry, strikes[..|strikes| - 1])[CallCode(expiry, s) := (CallSide, s)][PutCode(expiry, s) := (PutSide, s)]
  }

  /** The request list has two codes per strike: the call at 2k and the put at 2k+1. */
  lemma {:induction false} CodeListShape(expiry: string, strikes: seq<int>)
    ensures |CodeList(expiry, strikes)| == 2 * |strikes|
    ensures forall k :: 0 <= k < |strikes| ==>
              CodeList(expiry, strikes)[2 * k] == CallCode(expiry, strikes[k]) &&
              CodeList(expiry, strikes)[2 * k + 1] == PutCode(expiry, strikes[k])
  {
    if |strikes| > 0 {
      var prefix := strikes[..|strikes| - 1];
      CodeListShape(expiry, prefix);
      assert forall k :: 0 <= k < |prefix| ==> strikes[k] == prefix[k];
    }
  }

  /** The map's keys are exactly the requested codes, and each code maps back to the side and
      strike it was built from. */
  lemma {:induction false} StrikeMapInvertsCodes(expiry: string, strikes: seq<int>)
    ensures forall c :: c in StrikeMap(expiry, strikes) <==> c in CodeList(expiry, strikes)
    ensures forall s :: s in strikes ==>
              && CallCode(expiry, s) in StrikeMap(expiry, strikes) && StrikeMap(expiry, strikes)[CallCode(expiry, s)] == (CallSide, s)
              && PutCode(expiry, s) in StrikeMap(expiry, strikes) && StrikeMap(expiry, strikes)[PutCode(expiry, s)] == (PutSide, s)
  {
    if |strikes| > 0 {
      var prefix, s := strikes[..|strikes| - 1], strikes[|strikes| - 1];
      StrikeMapInvertsCodes(expiry, prefix);
      assert strikes == prefix + [s];
    }
  }

  /** Builds the request list `all_codes` and the (never read) `strike_map` of `find_best_straddle`. */
  method BuildCodes(expiry: string, strikes: seq<int>) returns (codes: seq<OptionCode>, strikeMap: map<OptionCode, (Side, int)>)
    ensures codes == CodeList(expiry, strikes) && strikeMap == StrikeMap(expiry, strikes)
  {
    codes, strikeMap := [], map[];
    for k := 0 to |strikes|
      invariant codes == CodeList(expiry, strikes[..k]) && strikeMap == StrikeMap(expiry, strikes[..k])
    {
      var s := strikes[k];
      assert strikes[..k + 1][..k] == strikes[..k];
      codes := codes + [CallCode(expiry, s), PutCode(expiry, s)];
      strikeMap := strikeMap[CallCode(expiry, s) := (CallSide, s)][PutCode(expiry, s) := (PutSide, s)];
    }
    assert strikes[..|strikes|] == strikes;
  }

  // ---------------------------------------------------------------- quotes

  /** One row of the market snapshot: `code`, `bid_price`, `ask_price`, `volume` (0 when absent). */
  datatype QuoteRow = QuoteRow(code: OptionCode, bid: real, ask: real, volume: nat)

  /** `quotes_df[quotes_df['code'] == code].iloc[0]`: the first row with that code. */
  function Lookup(rows: seq<QuoteRow>, code: OptionCode): (r: Option<QuoteRow>)
    ensures r.None? <==> forall k :: 0 <= k < |rows| ==> rows[k].code != code
    ensures r.Some? ==> exists k :: 0 <= k < |rows| && rows[k] == r.value && r.value.code == code &&
                          forall j :: 0 <= j < k ==> rows[j].code != code
  {
    if |rows| == 0 then None
    else if rows[0].code == code then Some(rows[0])
    else
      var r := Lookup(rows[1..], code);
      assert r.Some? ==> exists k :: 0 <= k < |rows[1..]| && rows[1..][k] == r.value && forall j :: 0 <= j < k ==> rows[1..][j].code != code;
      assert r.Some? ==> exists k :: 1 <= k < |rows| && rows[k] == r.value && forall j :: 1 <= j < k ==> rows[j].code != code;
      r
  }

  /** `(ask - bid) / ask * 100`, or 100 when the ask is not positive
      (`call_spread_pct`, `put_spread_pct` and the spread of `calculate_order_price`). */
  function SpreadPct(bid: real, ask: real): (pct: real)
    ensures ask <= 0.0 ==> pct == 100.0
    ensures 0.0 < ask && 0.0 <= bid <= ask ==> 0.0 <= pct <= 100.0
    ensures 0.0 < bid < ask ==> 0.0 < pct < 100.0
  {
    if ask > 0.0 then (ask - bid) / ask * 100.0 else 100.0
  }

  /** The quote check of `find_best_straddle`: 0 < bid < ask. */
  predicate ValidLeg(bid: real, ask: real)
  {
    bid > 0.0 && ask > 0.0 && bid < ask
  }

  /** `(min(100, volume/10) + 2 * max(0, 100 - avg_spread_pct*10)) / 3`. */
  function LiquidityScore(totalVolume: nat, avgSpreadPct: real): (score: real)
    ensures 0.0 <= avgSpreadPct ==> 0.0 <= score <= 100.0
  {
    (MinReal(100.0, totalVolume as real / 10.0) + 2.0 * MaxReal(0.0, 100.0 - avgSpreadPct * 10.0)) / 3.0
  }

  /** More volume or a tighter spread never lowers the liquidity score. */
  lemma LiquidityScoreMonotone(v1: nat, s1: real, v2: nat, s2: real)
    requires v1 <= v2 && s2 <= s1
    ensures LiquidityScore(v1, s1) <= LiquidityScore(v2, s2)
  {
  }

  /** The `StraddleQuote` dataclass. */
  datatype StraddleQuote = StraddleQuote(
    strike: int, expiry: string, callCode: OptionCode, putCode: OptionCode,
    callBid: real, callAsk: real, callVolume: nat,
    putBid: real, putAsk: real, putVolume: nat,
    distanceFromSpot: real, totalPremium: real, liquidityScore: real)
  {
    /** The `call_spread_pct` property. */
    function CallSpreadPct(): real
    {
      SpreadPct(callBid, callAsk)
    }

    /** The `put_spread_pct` property. */
    function PutSpreadPct(): real
    {
      SpreadPct(putBid, putAsk)
    }

    function AvgSpreadPct(): real
    {
      (CallSpreadPct() + PutSpreadPct()) / 2.0
    }
  }

  /** The straddle the loop of `find_best_straddle` builds for one strike, or None
      when a leg's quote is missing or fails the 0 < bid < ask check. */
  function Candidate(strike: int, expiry: string, price: real, rows: seq<QuoteRow>): (r: Option<StraddleQuote>)
    ensures r.Some? ==> var q := r.value;
      && q.strike == strike && q.expiry == expiry
      && q.callCode == CallCode(expiry, strike) && q.putCode == PutCode(expiry, strike)
      && ValidLeg(q.callBid, q.callAsk) && ValidLeg(q.putBid, q.putAsk)
      && q.totalPremium > 0.0
      && q.distanceFromSpot == Abs(strike as real - price)
      && 0.0 <= q.liquidityScore <= 100.0
      && q.liquidityScore == LiquidityScore(q.callVolume + q.putVolume, q.AvgSpreadPct())
    ensures r.None? <==> (|| Lookup(rows, CallCode(expiry, strike)).None?
                          || Lookup(rows, PutCode(expiry, strike)).None?
                          || !ValidLeg(Lookup(rows, CallCode(expiry, strike)).value.bid, Lookup(rows, CallCode(expiry, strike)).value.ask)
                          || !ValidLeg(Lookup(rows, PutCode(expiry, strike)).value.bid, Lookup(rows, PutCode(expiry, strike)).value.ask))
    ensures r.Some? ==> Lookup(rows, CallCode(expiry, strike)) == Some(QuoteRow(CallCode(expiry, strike), r.value.callBid, r.value.callAsk, r.value.callVolume))
    ensures r.Some? ==> Lookup(rows, PutCode(expiry, strike)) == Some(QuoteRow(PutCode(expiry, strike), r.value.putBid, r.value.putAsk, r.value.putVolume))
    ensures r.Some? ==> r.value.totalPremium == (r.value.callBid + r.value.callAsk) / 2.0 + (r.value.putBid + r.value.putAsk) / 2.0
  {
    var callCode, putCode := CallCode(expiry, strike), PutCode(expiry, strike);
    var c, p := Lookup(rows, callCode), Lookup(rows, putCode);
    if c.Some? && p.Some? && ValidLeg(c.value.bid, c.value.ask) && ValidLeg(p.value.bid, p.value.ask) then
      var c, p := c.value, p.value;
      var avgSpread := (SpreadPct(c.bid, c.ask) + SpreadPct(p.bid, p.ask)) / 2.0;
      Some(StraddleQuote(
        strike, expiry, callCode, putCode,
        c.bid, c.ask, c.volume, p.bid, p.ask, p.volume,
        Abs(strike as real - price),
        (c.bid + c.ask) / 2.0 + (p.bid + p.ask) / 2.0,
        LiquidityScore(c.volume + p.volume, avgSpread)))
    else None
  }

  /** `avg_spread_pct <= max_spread_pct`: the filter a candidate must pass. */
  predicate Admissible(q: StraddleQuote, maxSpreadPct: real)
  {
    q.AvgSpreadPct() <= maxSpreadPct
  }

  /** A strike whose straddle survives validation and the spread filter. */
  predicate AdmissibleAt(strike: int, expiry: string, price: real, rows: seq<QuoteRow>, maxSpreadPct: real)
  {
    var c := Candidate(strike, expiry, price, rows);
    c.Some? && Admissible(c.value, maxSpreadPct)
  }

  function StrikesOf(qs: seq<StraddleQuote>): (r: seq<int>)
    ensures |r| == |qs| && forall k :: 0 <= k < |qs| ==> r[k] == qs[k].strike
  {
    seq(|qs|, k requires 0 <= k < |qs| => qs[k].strike)
  }

  /** A straddle builder that only ever builds the straddle of the strike it is given. */
  ghost predicate StrikeTagged(build: int -> Option<StraddleQuote>)
  {
    forall s :: build(s).Some? ==> build(s).value.strike == s
  }

  /** The straddles `build` yields for the strikes, in strike-list order, keeping those that
      pass the spread filter. */
  function Admitted(strikes: seq<int>, build: int -> Option<StraddleQuote>, maxSpreadPct: real): seq<StraddleQuote>
  {
    if |strikes| == 0 then []
    else
      var prev := Admitted(strikes[..|strikes| - 1], build, maxSpreadPct);
      var c := build(strikes[|strikes| - 1]);
      if c.Some? && Admissible(c.value, maxSpreadPct) then prev + [c.value] else prev
  }

  lemma StrikesOfAppend(qs: seq<StraddleQuote>, q: StraddleQuote)
    ensures StrikesOf(qs + [q]) == StrikesOf(qs) + [q.strike]
  {
  }

  /** Each kept straddle is the one built for one of the strikes, and passes the filter. */
  lemma {:induction false} AdmittedSound(strikes: seq<int>, build: int -> Option<StraddleQuote>, maxSpreadPct: real)
    requires StrikeTagged(build)
    ensures var kept := Admitted(strikes, build, maxSpreadPct);
      && |kept| <= |strikes|
      && forall k :: 0 <= k < |kept| ==>
           kept[k].strike in strikes && build(kept[k].strike) == Some(kept[k]) && Admissible(kept[k], maxSpreadPct)
  {
    if |strikes| > 0 {
      var prefix, last := strikes[..|strikes| - 1], strikes[|strikes| - 1];
      AdmittedSound(prefix, build, maxSpreadPct);
      assert strikes == prefix + [last];
      var c := build(last);
      if c.Some? {
        assert c.value.strike == last;
      }
    }
  }

  /** A strike of the list has a kept straddle exactly when its straddle is built and passes the filter. */
  lemma {:induction false} AdmittedComplete(strikes: seq<int>, build: int -> Option<StraddleQuote>, maxSpreadPct: real, s: int)
    requires StrikeTagged(build) && s in strikes
    ensures build(s).Some? && Admissible(build(s).value, maxSpreadPct) <==> s in StrikesOf(Admitted(strikes, build, maxSpreadPct))
  {
    var prefix, last := strikes[..|strikes| - 1], strikes[|strikes| - 1];
    var prev := Admitted(prefix, build, maxSpreadPct);
    var c := build(last);
    assert strikes == prefix + [last];
    if c.Some? && Admissible(c.value, maxSpreadPct) {
      StrikesOfAppend(prev, c.value);
    }
    if s in prefix {
      AdmittedComplete(prefix, build, maxSpreadPct, s);
    } else {
      // s is the last strike, so no earlier straddle carries it
      AdmittedSound(prefix, build, maxSpreadPct);
    }
  }

  /** Over an increasing strike list the kept straddles come out in increasing strike order. */
  lemma {:induction false} AdmittedOrdered(strikes: seq<int>, build: int -> Option<StraddleQuote>, maxSpreadPct: real)
    requires StrikeTagged(build) && StrictlyIncreasing(strikes)
    ensures StrictlyIncreasing(StrikesOf(Admitted(strikes, build, maxSpreadPct)))
  {
    if |strikes| > 0 {
      var prefix, last := strikes[..|strikes| - 1], strikes[|strikes| - 1];
      var prev := Admitted(prefix, build, maxSpreadPct);
      AdmittedOrdered(prefix, build, maxSpreadPct);
      AdmittedSound(prefix, build, maxSpreadPct);
      forall k | 0 <= k < |prev| ensures prev[k].strike < last {
        var j :| 0 <= j < |prefix| && prefix[j] == prev[k].strike;
      }
      var c := build(last);
      if c.Some? && Admissible(c.value, maxSpreadPct) {
        StrikesOfAppend(prev, c.value);
      }
    }
  }

  /** The `straddles` list: the admissible candidates, in strike-list order. */
  function Candidates(strikes: seq<int>, expiry: string, price: real, rows: seq<QuoteRow>, maxSpreadPct: real): seq<StraddleQuote>
  {
    Admitted(strikes, s => Candidate(s, expiry, price, rows), maxSpreadPct)
  }

  lemma CandidateTagged(expiry: string, price: real, rows: seq<QuoteRow>)
    ensures StrikeTagged(s => Candidate(s, expiry, price, rows))
  {
  }

  /** Each listed straddle is the candidate of one of the strikes, and passes the spread filter. */
  lemma CandidatesSound(strikes: seq<int>, expiry: string, price: real, rows: seq<QuoteRow>, maxSpreadPct: real)
    ensures var cands := Candidates(strikes, expiry, price, rows, maxSpreadPct);
      && |cands| <= |strikes|
      && forall q :: q in cands ==>
           q.strike in strikes && Candidate(q.strike, expiry, price, rows) == Some(q) && Admissible(q, maxSpreadPct)
  {
    CandidateTagged(expiry, price, rows);
    AdmittedSound(strikes, s => Candidate(s, expiry, price, rows), maxSpreadPct);
  }

  /** A strike of the list has a straddle in the result exactly when its candidate is admissible. */
  lemma CandidatesComplete(strikes: seq<int>, expiry: string, price: real, rows: seq<QuoteRow>, maxSpreadPct: real, s: int)
    requires s in strikes
    ensures AdmissibleAt(s, expiry, price, rows, maxSpreadPct) <==> s in StrikesOf(Candidates(strikes, expiry, price, rows, maxSpreadPct))
  {
    CandidateTagged(expiry, price, rows);
    AdmittedComplete(strikes, s => Candidate(s, expiry, price, rows), maxSpreadPct, s);
  }

  /** Over an increasing strike list the straddles come out in increasing strike order. */
  lemma CandidatesOrdered(strikes: seq<int>, expiry: string, price: real, rows: seq<QuoteRow>, maxSpreadPct: real)
    requires StrictlyIncreasing(strikes)
    ensures StrictlyIncreasing(StrikesOf(Candidates(strikes, expiry, price, rows, maxSpreadPct)))
  {
    CandidateTagged(expiry, price, rows);
    AdmittedOrdered(strikes, s => Candidate(s, expiry, price, rows), maxSpreadPct);
  }

  /** The loop of `find_best_straddle` over the strike list. */
  method BuildCandidates(strikes: seq<int>, expiry: string, price: real, rows: seq<QuoteRow>, maxSpreadPct: real)
    returns (cands: seq<StraddleQuote>)
    ensures cands == Candidates(strikes, expiry, price, rows, maxSpreadPct)
  {
    cands := [];
    for i := 0 to |strikes|
      invariant cands == Candidates(strikes[..i], expiry, price, rows, maxSpreadPct)
    {
      var strike := strikes[i];
      assert strikes[..i + 1][..i] == strikes[..i];
      var candidate := Candidate(strike, expiry, price, rows);
      if candidate.Some? && Admissible(candidate.value, maxSpreadPct) {
        cands := cands + [candidate.value];
      }
    }
    assert strikes[..|strikes|] == strikes;
  }

  // ---------------------------------------------------------------- choice

  /** The key `min` is taken over: `distance_from_spot * 10 + (100 - liquidity_score)`. */
  function SelectionKey(q: StraddleQuote): real
  {
    q.distanceFromSpot * 10.0 + (100.0 - q.liquidityScore)
  }

  /** The index Python's `min(straddles, key=...)` returns: a least key, the first one on ties. */
  function BestIndex(qs: seq<StraddleQuote>): (k: nat)
    requires |qs| > 0
    ensures k < |qs|
    ensures forall j :: 0 <= j < |qs| ==> SelectionKey(qs[k]) <= SelectionKey(qs[j])
    ensures forall j :: 0 <= j < k ==> SelectionKey(qs[j]) > SelectionKey(qs[k])
  {
    if |qs| == 1 then 0
    else
      var m := BestIndex(qs[..|qs| - 1]);
      if SelectionKey(qs[|qs| - 1]) < SelectionKey(qs[m]) then |qs| - 1 else m
  }

  /** The selected straddle, None exactly when the list is empty; ties go to the
      earliest, which in strike order is the lowest strike. */
  function SelectBest(qs: seq<StraddleQuote>): (r: Option<StraddleQuote>)
    ensures r.None? <==> |qs| == 0
    ensures r.Some? ==> r.value in qs && forall q :: q in qs ==> SelectionKey(r.value) <= SelectionKey(q)
    ensures r.Some? && StrictlyIncreasing(StrikesOf(qs)) ==>
              forall q :: q in qs && SelectionKey(q) == SelectionKey(r.value) ==> r.value.strike <= q.strike
  {
    if |qs| == 0 then None
    else
      var k := BestIndex(qs);
      assert forall q :: q in qs ==> exists j :: 0 <= j < |qs| && qs[j] == q;
      Some(qs[k])
  }
}
