/** The limit price of an opening order (`calculate_order_price` in
    src/production_strategy_complete.py). */
module Pricing {
  import opened Common
  import opened Selection

  /** The unrounded price: 1% over the ask when urgent or when the spread is wider than 5%,
      60% of the way into the spread when it is tighter than 1%, 75% of the way otherwise. */
  function LimitPrice(bid: real, ask: real, urgent: bool): real
  {
    var spread := ask - bid;
    var spreadPct := SpreadPct(bid, ask);
    if urgent || spreadPct > 5.0 then ask * 1.01
    else if spreadPct < 1.0 then bid + spread * 0.6
    else bid + spread * 0.75
  }

  /** The price sent to the broker: the limit price rounded to the cent. */
  function OrderPrice(bid: real, ask: real, urgent: bool): (price: real)
    ensures Abs(price - LimitPrice(bid, ask, urgent)) <= 0.005
  {
    RoundCents(LimitPrice(bid, ask, urgent))
  }

  /** On a sound quote a patient order is priced inside the spread, strictly above the bid
      and strictly below the ask, at 60% or 75% of the way up. */
  lemma PatientPriceInsideSpread(bid: real, ask: real)
    requires 0.0 < bid < ask && SpreadPct(bid, ask) <= 5.0
    ensures bid < LimitPrice(bid, ask, false) < ask
    ensures LimitPrice(bid, ask, false) - bid == (ask - bid) * (if SpreadPct(bid, ask) < 1.0 then 0.6 else 0.75)
  {
  }

  /** An urgent order, or one on a spread wider than 5%, bids 1% over the ask, and on any quote
      with 0 < ask and bid <= ask that is at least the patient price. */
  lemma UrgentPriceDominates(bid: real, ask: real)
    requires 0.0 < ask && bid <= ask
    ensures LimitPrice(bid, ask, true) == ask * 1.01
    ensures LimitPrice(bid, ask, false) <= LimitPrice(bid, ask, true)
    ensures SpreadPct(bid, ask) > 5.0 ==> LimitPrice(bid, ask, false) == LimitPrice(bid, ask, true)
  {
    if SpreadPct(bid, ask) <= 5.0 {
      assert LimitPrice(bid, ask, false) <= ask;
    }
  }

  /** The rounded price follows the same order: urgency never lowers it. */
  lemma OrderPriceUrgencyMonotone(bid: real, ask: real)
    requires 0.0 < ask && bid <= ask
    ensures OrderPrice(bid, ask, false) <= OrderPrice(bid, ask, true)
  {
    UrgentPriceDominates(bid, ask);
    RoundCentsMonotone(LimitPrice(bid, ask, false), LimitPrice(bid, ask, true));
  }

  /** A whole number of cents is left alone by rounding to the cent. */
  lemma RoundCentsKeepsCents(cents: int)
    ensures RoundCents(cents as real / 100.0) == cents as real / 100.0
  {
    assert (cents as real / 100.0) * 100.0 == cents as real;
    assert (cents as real).Floor == cents;
  }

  /** When bid and ask are quoted in whole cents, the rounded patient price stays within [bid, ask]. */
  lemma PatientOrderPriceWithinQuote(bidCents: int, askCents: int)
    requires 0 < bidCents < askCents
    requires SpreadPct(bidCents as real / 100.0, askCents as real / 100.0) <= 5.0
    ensures var bid, ask := bidCents as real / 100.0, askCents as real / 100.0;
      bid <= OrderPrice(bid, ask, false) <= ask
  {
    var bid, ask := bidCents as real / 100.0, askCents as real / 100.0;
    PatientPriceInsideSpread(bid, ask);
    RoundCentsMonotone(bid, LimitPrice(bid, ask, false));
    RoundCentsMonotone(LimitPrice(bid, ask, false), ask);
    RoundCentsKeepsCents(bidCents);
    RoundCentsKeepsCents(askCents);
  }
}
