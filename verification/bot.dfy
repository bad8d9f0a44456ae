/** The bot object of src/production_strategy_complete.py (`ProductionSPXBot`): the SPX price
    gate, the account refresh, its own position sizing, the straddle search, the order loops
    over the broker gateway, and `execute_trade`, each method proved against the pure
    definitions of the other modules. */
module Bot {
  import opened Common
  import opened Calendar
  import opened Selection
  import opened OptionCodes
  import opened Pricing
  import opened Gateway
  import opened Execution
  import Positions

  // ---------------------------------------------------------------- get_spx_price

  /** The band outside which an SPX price is refused. */
  const SpxFloor: real := 3000.0
  const SpxCeiling: real := 7000.0
  /** `max_retries` of `get_spx_price`. */
  const SpxRetries: nat := 3

  predicate Sane(price: real)
  {
    SpxFloor <= price <= SpxCeiling
  }

  /** One attempt of the backup source: it raised, or it answered with an optional last price
      and the closes of the day's one-minute history. */
  datatype BackupReply = BackupRaised | BackupQuote(lastPrice: Option<real>, closes: seq<real>)

  /** The price sources as seen by one `get_spx_price` call: the broker snapshot's last price
      (None when the call failed, returned no row or raised) and the backup replies in order;
      attempts past the end of the script raise. */
  datatype PriceFeed = PriceFeed(primary: Option<real>, backup: seq<BackupReply>)

  /** The price an attempt of the backup read: the last price, else the latest close. */
  function BackupPrice(reply: BackupReply): Option<real>
  {
    match reply
    case BackupRaised => None
    case BackupQuote(last, closes) =>
      if last.Some? then last
      else if |closes| > 0 then Some(closes[|closes| - 1])
      else None
  }

  predicate SaneReply(reply: BackupReply)
  {
    BackupPrice(reply).Some? && Sane(BackupPrice(reply).value)
  }

  function BackupAt(feed: PriceFeed, attempt: nat): BackupReply
  {
    ScriptAt(feed.backup, attempt, BackupRaised)
  }

  /** The backup loop from `attempt` on: the first sane price among the remaining attempts. */
  function FirstSaneFrom(feed: PriceFeed, attempt: nat, maxRetries: nat): (r: Option<real>)
    ensures r.Some? ==> Sane(r.value)
    decreases maxRetries - attempt
  {
    if attempt >= maxRetries then None
    else if SaneReply(BackupAt(feed, attempt)) then BackupPrice(BackupAt(feed, attempt))
    else FirstSaneFrom(feed, attempt + 1, maxRetries)
  }

  /** The backup loop finds nothing exactly when none of its attempts reads a sane price, and
      what it finds is the price of the first attempt that does. */
  lemma {:induction false} FirstSaneIsFirst(feed: PriceFeed, attempt: nat, maxRetries: nat)
    ensures FirstSaneFrom(feed, attempt, maxRetries).None? <==>
      forall k :: attempt <= k < maxRetries ==> !SaneReply(BackupAt(feed, k))
    ensures FirstSaneFrom(feed, attempt, maxRetries).Some? ==>
      exists k :: attempt <= k < maxRetries && SaneReply(BackupAt(feed, k))
        && FirstSaneFrom(feed, attempt, maxRetries) == BackupPrice(BackupAt(feed, k))
        && forall j :: attempt <= j < k ==> !SaneReply(BackupAt(feed, j))
    decreases maxRetries - attempt
  {
    if attempt < maxRetries && !SaneReply(BackupAt(feed, attempt)) {
      FirstSaneIsFirst(feed, attempt + 1, maxRetries);
    }
  }

  /** `get_spx_price(max_retries)`: the broker's price when it is inside [3000, 7000], else the
      first backup attempt that reads a price inside the band, else a RuntimeError. */
  function SpxPrice(feed: PriceFeed, maxRetries: nat): (r: Result<real>)
    ensures r.Ok? ==> Sane(r.value)
    ensures r.Err? ==> r.fault == PriceUnavailable
    ensures feed.primary.Some? && Sane(feed.primary.value) ==> r == Ok(feed.primary.value)
  {
    if feed.primary.Some? && Sane(feed.primary.value) then Ok(feed.primary.value)
    else
      var b := FirstSaneFrom(feed, 0, maxRetries);
      if b.Some? then Ok(b.value) else Err(PriceUnavailable)
  }

  /** There is no price exactly when neither the broker nor any of the `maxRetries` backup
      attempts offers one inside the band. */
  lemma SpxPriceFails(feed: PriceFeed, maxRetries: nat)
    ensures SpxPrice(feed, maxRetries).Err? <==>
      !(feed.primary.Some? && Sane(feed.primary.value))
      && forall k :: 0 <= k < maxRetries ==> !SaneReply(BackupAt(feed, k))
  {
    FirstSaneIsFirst(feed, 0, maxRetries);
  }

  /** The loop of `get_spx_price`. */
  method GetSpxPrice(feed: PriceFeed, maxRetries: nat) returns (r: Result<real>)
    ensures r == SpxPrice(feed, maxRetries)
  {
    if feed.primary.Some? && Sane(feed.primary.value) {
      return Ok(feed.primary.value);
    }
    for attempt := 0 to maxRetries
      invariant FirstSaneFrom(feed, attempt, maxRetries) == FirstSaneFrom(feed, 0, maxRetries)
    {
      var price := BackupPrice(BackupAt(feed, attempt));
      if price.Some? && Sane(price.value) {
        return Ok(price.value);
      }
    }
    return Err(PriceUnavailable);
  }

  // ---------------------------------------------------------------- the bot's own sizing

  /** `calculate_position_size` of the bot: whole contracts (100 shares of the straddle premium)
      that both the risk budget and the buying power pay for, raised to 1 when the buying power
      covers one contract, and never negative. A zero premium divides by zero. */
  function PositionSize(accountValue: real, buyingPower: real, maxRiskPct: real, premium: real): (r: Result<int>)
    ensures r.Err? <==> premium == 0.0
    ensures r.Ok? ==> r.value >= 0
  {
    var unit := premium * 100.0;
    if unit == 0.0 then Err(ZeroDivision)
    else
      var byRisk := Truncate(accountValue * maxRiskPct / unit);
      var byPower := Truncate(buyingPower / unit);
      var contracts := MinInt(byRisk, byPower);
      var contracts := if contracts < 1 && buyingPower >= unit then 1 else contracts;
      Ok(MaxInt(0, contracts))
  }

  /** With a positive premium the bot trades at least one contract exactly when its buying
      power covers one, never more than the buying power pays for, and more than one only
      within the risk budget. */
  lemma PositionSizeBounds(accountValue: real, buyingPower: real, maxRiskPct: real, premium: real)
    requires premium > 0.0
    ensures var n := PositionSize(accountValue, buyingPower, maxRiskPct, premium).value;
      && (n >= 1 <==> buyingPower >= premium * 100.0)
      && n as real * (premium * 100.0) <= MaxReal(buyingPower, 0.0)
      && (n >= 2 ==> n as real * (premium * 100.0) <= accountValue * maxRiskPct)
  {
    var unit := premium * 100.0;
    var n := PositionSize(accountValue, buyingPower, maxRiskPct, premium).value;
    WholeUnitsCount(buyingPower, unit);
    WholeUnitsCount(accountValue * maxRiskPct, unit);
    var byRisk := Truncate(accountValue * maxRiskPct / unit);
    var byPower := Truncate(buyingPower / unit);
    if n >= 2 {
      assert n <= byRisk && n <= byPower;
      WholeUnits(accountValue * maxRiskPct, unit, n);
      WholeUnits(buyingPower, unit, n);
    } else if n == 1 {
      assert buyingPower >= unit;
    }
  }

  /** The 2% buffer of the final buying-power check can refuse the very contract the sizing
      just granted: with 2500 of buying power and a 25.00 premium the bot sizes one contract
      (the risk budget pays for none, the buying power for one) and then needs 2550. */
  lemma BufferRefusesSizedContract()
    ensures PositionSize(100000.0, 2500.0, 0.02, 25.0) == Ok(1)
    ensures EstimatedCost(25.0, 1) > 2500.0
  {
    assert 100000.0 * 0.02 / (25.0 * 100.0) == 0.8;
    assert 2500.0 / (25.0 * 100.0) == 1.0;
  }

  // ---------------------------------------------------------------- account refresh

  /** The first row of `accinfo_query`; a column absent from the row is None. */
  datatype AccountRow = AccountRow(
    usCash: Option<real>, usPower: Option<real>, power: Option<real>,
    maxPowerShort: Option<real>, totalAssets: Option<real>)

  datatype Account = Account(cash: real, buyingPower: real, value: real)

  /** `row.get(column, default)`. */
  function GetOr(column: Option<real>, default: real): real
  {
    if column.Some? then column.value else default
  }

  /** `_refresh_account_info`: a failed query (None) leaves the account as it was; otherwise
      cash defaults to 0, buying power falls back from `us_power` to `power` to
      `max_power_short` to 0, and the account value falls back to the cash. */
  function Refreshed(acct: Account, reply: Option<AccountRow>): (a: Account)
    ensures reply.None? ==> a == acct
    ensures reply.Some? ==> a.cash == (if reply.value.usCash.Some? then reply.value.usCash.value else 0.0)
    ensures reply.Some? && reply.value.totalAssets.Some? ==> a.value == reply.value.totalAssets.value
    ensures reply.Some? && reply.value.totalAssets.None? ==> a.value == a.cash
    ensures reply.Some? && reply.value.usPower.Some? ==> a.buyingPower == reply.value.usPower.value
    ensures reply.Some? && reply.value.usPower.None? && reply.value.power.Some? ==> a.buyingPower == reply.value.power.value
    ensures reply.Some? && reply.value.usPower.None? && reply.value.power.None? && reply.value.maxPowerShort.Some? ==>
              a.buyingPower == reply.value.maxPowerShort.value
    ensures reply.Some? && reply.value.usPower.None? && reply.value.power.None? && reply.value.maxPowerShort.None? ==> a.buyingPower == 0.0
  {
    match reply
    case None => acct
    case Some(row) =>
      var cash := GetOr(row.usCash, 0.0);
      Account(cash, GetOr(row.usPower, GetOr(row.power, GetOr(row.maxPowerShort, 0.0))), GetOr(row.totalAssets, cash))
  }

  /** A successful query replaces the whole account: what was known before is forgotten, so
      refreshing again with the same reply changes nothing. */
  lemma RefreshReplacesAccount(before: Account, other: Account, row: AccountRow)
    ensures Refreshed(before, Some(row)) == Refreshed(other, Some(row))
    ensures Refreshed(Refreshed(before, Some(row)), Some(row)) == Refreshed(before, Some(row))
  {
  }

  // ---------------------------------------------------------------- find_best_straddle

  /** `find_best_straddle` at moment `now`, with the price feed of its `get_spx_price` call and
      the reply of the batch snapshot (None when it failed). */
  function BestStraddle(now: Moment, feed: PriceFeed, quotes: Option<seq<QuoteRow>>, maxSpreadPct: real): Result<Option<StraddleQuote>>
  {
    var price := SpxPrice(feed, SpxRetries);
    if price.Err? then Err(price.fault)
    else if quotes.None? then Ok(None)
    else
      var expiry := ExpiryCode(ExpiryDate(now));
      Ok(SelectBest(Candidates(StrikeWindow(price.value), expiry, price.value, quotes.value, maxSpreadPct)))
  }

  /** The chosen straddle is the admissible straddle of a window strike for this week's expiry
      with the smallest selection key, ties going to the lowest strike; there is none exactly
      when the snapshot failed or no strike of the window is admissible. */
  lemma BestStraddleChoice(now: Moment, feed: PriceFeed, quotes: Option<seq<QuoteRow>>, maxSpreadPct: real)
    requires SpxPrice(feed, SpxRetries).Ok?
    ensures var price, expiry := SpxPrice(feed, SpxRetries).value, ExpiryCode(ExpiryDate(now));
      var r := BestStraddle(now, feed, quotes, maxSpreadPct);
      && r.Ok?
      && (r.value.None? <==> quotes.None? || forall x :: InWindow(price, x) ==> !AdmissibleAt(x, expiry, price, quotes.value, maxSpreadPct))
      && (r.value.Some? ==>
            var q := r.value.value;
            && quotes.Some? && InWindow(price, q.strike) && q.expiry == expiry
            && Candidate(q.strike, expiry, price, quotes.value) == Some(q) && Admissible(q, maxSpreadPct)
            && (forall x :: InWindow(price, x) && AdmissibleAt(x, expiry, price, quotes.value, maxSpreadPct) ==>
                  SelectionKey(q) <= SelectionKey(Candidate(x, expiry, price, quotes.value).value)
                  && (SelectionKey(q) == SelectionKey(Candidate(x, expiry, price, quotes.value).value) ==> q.strike <= x)))
  {
    if quotes.Some? {
      var price, expiry := SpxPrice(feed, SpxRetries).value, ExpiryCode(ExpiryDate(now));
      var cands := Candidates(StrikeWindow(price), expiry, price, quotes.value, maxSpreadPct);
      assert BestStraddle(now, feed, quotes, maxSpreadPct) == Ok(SelectBest(cands));
      NoneWhenNoneAdmissible(price, expiry, quotes.value, maxSpreadPct);
      ChosenIsBest(price, expiry, quotes.value, maxSpreadPct);
    }
  }

  /** Over the window there is no straddle exactly when no window strike is admissible. */
  lemma NoneWhenNoneAdmissible(price: real, expiry: string, rows: seq<QuoteRow>, maxSpreadPct: real)
    ensures var cands := Candidates(StrikeWindow(price), expiry, price, rows, maxSpreadPct);
      |cands| == 0 <==> forall x :: InWindow(price, x) ==> !AdmissibleAt(x, expiry, price, rows, maxSpreadPct)
  {
    var strikes := StrikeWindow(price);
    StrikeWindowIsWindow(price);
    forall x | InWindow(price, x) && AdmissibleAt(x, expiry, price, rows, maxSpreadPct)
      ensures |Candidates(strikes, expiry, price, rows, maxSpreadPct)| > 0
    {
      CandidatesComplete(strikes, expiry, price, rows, maxSpreadPct, x);
    }
    var cands := Candidates(strikes, expiry, price, rows, maxSpreadPct);
    if |cands| > 0 {
      CandidatesSound(strikes, expiry, price, rows, maxSpreadPct);
      var x := cands[0].strike;
      assert AdmissibleAt(x, expiry, price, rows, maxSpreadPct) by {
        assert cands[0] in cands;
      }
    }
  }

  /** The straddle picked from the window is a window strike's admissible candidate with the
      least key among all admissible window strikes, ties going to the lowest strike. */
  lemma ChosenIsBest(price: real, expiry: string, rows: seq<QuoteRow>, maxSpreadPct: real)
    ensures var r := SelectBest(Candidates(StrikeWindow(price), expiry, price, rows, maxSpreadPct));
      r.Some? ==>
        var q := r.value;
        && InWindow(price, q.strike) && q.expiry == expiry
        && Candidate(q.strike, expiry, price, rows) == Some(q) && Admissible(q, maxSpreadPct)
        && (forall x :: InWindow(price, x) && AdmissibleAt(x, expiry, price, rows, maxSpreadPct) ==>
              SelectionKey(q) <= SelectionKey(Candidate(x, expiry, price, rows).value)
              && (SelectionKey(q) == SelectionKey(Candidate(x, expiry, price, rows).value) ==> q.strike <= x))
  {
    var strikes := StrikeWindow(price);
    var cands := Candidates(strikes, expiry, price, rows, maxSpreadPct);
    StrikeWindowIsWindow(price);
    StrikeWindowGrid(price);
    CandidatesSound(strikes, expiry, price, rows, maxSpreadPct);
    CandidatesOrdered(strikes, expiry, price, rows, maxSpreadPct);
    forall x | InWindow(price, x) && AdmissibleAt(x, expiry, price, rows, maxSpreadPct)
      ensures Candidate(x, expiry, price, rows).value in cands
    {
      CandidatesComplete(strikes, expiry, price, rows, maxSpreadPct, x);
      var k :| 0 <= k < |cands| && StrikesOf(cands)[k] == x;
      assert Candidate(x, expiry, price, rows) == Some(cands[k]);
    }
  }

  /** A straddle that was found has a positive premium. */
  lemma FoundStraddleIsPriced(now: Moment, feed: PriceFeed, quotes: Option<seq<QuoteRow>>, maxSpreadPct: real)
    requires BestStraddle(now, feed, quotes, maxSpreadPct).Ok? && BestStraddle(now, feed, quotes, maxSpreadPct).value.Some?
    ensures BestStraddle(now, feed, quotes, maxSpreadPct).value.value.totalPremium > 0.0
  {
    var price, expiry := SpxPrice(feed, SpxRetries).value, ExpiryCode(ExpiryDate(now));
    CandidatesSound(StrikeWindow(price), expiry, price, quotes.value, maxSpreadPct);
  }

  // ---------------------------------------------------------------- execute_trade, planned

  /** The configuration keys the bot reads, when present. */
  datatype Config = Config(maxRiskPct: Option<real>, maxSpreadPct: Option<real>)

  const DefaultMaxRiskPct: real := 0.02
  const DefaultMaxSpreadPct: real := 20.0
  /** The buffer of the final buying-power check. */
  const CostBuffer: real := 1.02

  /** The estimated cost of a straddle order, buffered by 2%. */
  function EstimatedCost(premium: real, contracts: int): real
  {
    premium * 100.0 * contracts as real * CostBuffer
  }

  /** What the outside world answers during one `execute_trade`: the price feeds of its two
      `get_spx_price` calls, the option snapshot, and the account query. */
  datatype Market = Market(spot: PriceFeed, quotes: Option<seq<QuoteRow>>, account: Option<AccountRow>, closing: PriceFeed)

  /** How `execute_trade` ends: None for a closed market, no straddle, no contract or too little
      buying power; an exception; or the order phase ran. */
  datatype TradeOutcome =
    | MarketClosed
    | Raised(fault: Fault)
    | NoStraddle
    | NoContracts
    | OverBuyingPower
    | Attempted(straddle: StraddleQuote, contracts: int, legs: LegOutcome)

  /** The decision `execute_trade` reaches before its first order. */
  datatype Plan = Stop(outcome: TradeOutcome) | Go(straddle: StraddleQuote, contracts: int)

  /** Whether `execute_trade` gets as far as sizing, and so refreshes the account. */
  predicate SizingReached(now: Moment, market: Market, maxSpreadPct: real)
  {
    var best := BestStraddle(now, market.spot, market.quotes, maxSpreadPct);
    IsMarketOpen(now) && best.Ok? && best.value.Some?
  }

  function PlanTrade(now: Moment, market: Market, acct: Account, maxRiskPct: real, maxSpreadPct: real): Plan
  {
    if !IsMarketOpen(now) then Stop(MarketClosed)
    else
      var best := BestStraddle(now, market.spot, market.quotes, maxSpreadPct);
      if best.Err? then Stop(Raised(best.fault))
      else if best.value.None? then Stop(NoStraddle)
      else
        var s := best.value.value;
        var acct := Refreshed(acct, market.account);
        var size := PositionSize(acct.value, acct.buyingPower, maxRiskPct, s.totalPremium);
        // candidates have a positive premium, so the sizing cannot divide by zero
        if size.Err? then Stop(Raised(ZeroDivision))
        else if size.value < 1 then Stop(NoContracts)
        else if EstimatedCost(s.totalPremium, size.value) > acct.buyingPower then Stop(OverBuyingPower)
        else Go(s, size.value)
  }

  /** Orders go out only on an open market, for the chosen straddle, for at least one contract
      whose cost with the 2% buffer the refreshed buying power covers. */
  lemma PlanGoesOnlyWhenSafe(now: Moment, market: Market, acct: Account, maxRiskPct: real, maxSpreadPct: real)
    requires PlanTrade(now, market, acct, maxRiskPct, maxSpreadPct).Go?
    ensures var plan := PlanTrade(now, market, acct, maxRiskPct, maxSpreadPct);
      var updated := Refreshed(acct, market.account);
      && IsMarketOpen(now)
      && BestStraddle(now, market.spot, market.quotes, maxSpreadPct) == Ok(Some(plan.straddle))
      && plan.contracts >= 1
      && EstimatedCost(plan.straddle.totalPremium, plan.contracts) <= updated.buyingPower
      && PositionSize(updated.value, updated.buyingPower, maxRiskPct, plan.straddle.totalPremium) == Ok(plan.contracts)
  {
  }

  /** A straddle that was found always has a positive premium, so the sizing step never raises. */
  lemma PlanNeverDividesByZero(now: Moment, market: Market, acct: Account, maxRiskPct: real, maxSpreadPct: real)
    ensures PlanTrade(now, market, acct, maxRiskPct, maxSpreadPct) != Stop(Raised(ZeroDivision))
  {
    var best := BestStraddle(now, market.spot, market.quotes, maxSpreadPct);
    if IsMarketOpen(now) && best.Ok? && best.value.Some? {
      FoundStraddleIsPriced(now, market.spot, market.quotes, maxSpreadPct);
    }
  }

  // ---------------------------------------------------------------- the bot object

  class StraddleBot {
    var availableCash: real
    var buyingPower: real
    var accountValue: real
    const maxRiskPct: real
    const maxSpreadPct: real
    /** The no-limits position manager the bot creates; only the trade log would reach it. */
    const positionManager: Positions.PositionManager
    /** `trd_ctx`. */
    const gateway: OrderGateway

    function AccountState(): Account
      reads this
    {
      Account(availableCash, buyingPower, accountValue)
    }

    /** `__init__` with the broker connection already made: zero balances, the configured risk
      and spread limits or their defaults, and a no-limits manager at the default capital. */
    constructor(config: Config, gateway: OrderGateway)
      ensures AccountState() == Account(0.0, 0.0, 0.0)
      ensures maxRiskPct == GetOr(config.maxRiskPct, DefaultMaxRiskPct)
      ensures maxSpreadPct == GetOr(config.maxSpreadPct, DefaultMaxSpreadPct)
      ensures this.gateway == gateway
      ensures fresh(positionManager) && positionManager.policy == Positions.SizingPolicy.NoLimits
      ensures positionManager.currentCapital == Positions.DefaultCapital
    {
      availableCash, buyingPower, accountValue := 0.0, 0.0, 0.0;
      maxRiskPct := GetOr(config.maxRiskPct, DefaultMaxRiskPct);
      maxSpreadPct := GetOr(config.maxSpreadPct, DefaultMaxSpreadPct);
      this.gateway := gateway;
      positionManager := new Positions.PositionManager.NoLimits(None);
    }

    /** `_refresh_account_info`. */
    method RefreshAccountInfo(reply: Option<AccountRow>)
      modifies this
      ensures AccountState() == Refreshed(old(AccountState()), reply)
    {
      if reply.Some? {
        var row := reply.value;
        availableCash := GetOr(row.usCash, 0.0);
        buyingPower := GetOr(row.usPower, GetOr(row.power, GetOr(row.maxPowerShort, 0.0)));
        accountValue := GetOr(row.totalAssets, availableCash);
      }
    }

    /** `calculate_position_size`: refresh the account, then size on the fresh figures. */
    method CalculatePositionSize(premium: real, reply: Option<AccountRow>) returns (r: Result<int>)
      modifies this
      ensures AccountState() == Refreshed(old(AccountState()), reply)
      ensures r == PositionSize(accountValue, buyingPower, maxRiskPct, premium)
    {
      RefreshAccountInfo(reply);
      r := PositionSize(accountValue, buyingPower, maxRiskPct, premium);
    }

    /** `wait_for_fill(order_id, timeout)`: one query per second of the timeout. */
    method WaitForFill(id: OrderId, timeout: nat) returns (filled: bool, avgPrice: real)
      modifies gateway
      ensures PollResult(gateway.Snapshot(), filled, avgPrice) == Poll(old(gateway.Snapshot()), id, timeout)
    {
      var rounds := timeout;
      while rounds > 0
        invariant Poll(gateway.Snapshot(), id, rounds) == Poll(old(gateway.Snapshot()), id, timeout)
        decreases rounds
      {
        var row := gateway.QueryOrder(id);
        if row.Some? && row.value.status == FilledAll {
          return true, row.value.dealtAvgPrice;
        }
        if row.Some? && IsTerminal(row.value.status) {
          return false, 0.0;
        }
        rounds := rounds - 1;
      }
      return false, 0.0;
    }

    /** `cancel_order(order_id)`: the outcome is only logged. */
    method CancelOrder(id: OrderId)
      modifies gateway
      ensures gateway.Snapshot() == CancelStep(old(gateway.Snapshot()), id)
    {
      gateway.CancelOrder(id);
    }

    /** `place_order_with_retry(code, qty, bid, ask, max_attempts)`. */
    method PlaceOrderWithRetry(code: OptionCode, qty: int, bid: real, ask: real, maxAttempts: nat)
      returns (orderId: Option<OrderId>, fillPrice: real)
      modifies gateway
      ensures RetryResult(gateway.Snapshot(), orderId, fillPrice) == Retry(old(gateway.Snapshot()), code, qty, bid, ask, 0, maxAttempts)
    {
      for attempt := 0 to maxAttempts
        invariant Retry(gateway.Snapshot(), code, qty, bid, ask, attempt, maxAttempts)
               == Retry(old(gateway.Snapshot()), code, qty, bid, ask, 0, maxAttempts)
      {
        var price := OrderPrice(bid, ask, attempt >= 2);
        ghost var before := gateway.Snapshot();
        var reply := gateway.PlaceOrder(code, qty, price);
        if reply.Some? {
          var id := reply.value;
          var filled, avgPrice := WaitForFill(id, RetryPollRounds);
          if filled {
            return Some(id), avgPrice;
          }
          CancelOrder(id);
        }
        assert gateway.Snapshot() == Attempt(before, code, qty, price).broker;
      }
      return None, 0.0;
    }

    /** `find_best_straddle`. */
    method FindBestStraddle(now: Moment, feed: PriceFeed, quotes: Option<seq<QuoteRow>>)
      returns (r: Result<Option<StraddleQuote>>)
      ensures r == BestStraddle(now, feed, quotes, maxSpreadPct)
    {
      var price := GetSpxPrice(feed, SpxRetries);
      if price.Err? {
        return Err(price.fault);
      }
      var expiry := ExpiryCode(ExpiryDate(now));
      var strikes := BuildStrikes(price.value);
      var codes, strikeMap := BuildCodes(expiry, strikes);
      if quotes.None? {
        return Ok(None);
      }
      var straddles := BuildCandidates(strikes, expiry, price.value, quotes.value, maxSpreadPct);
      return Ok(SelectBest(straddles));
    }

    /** `execute_trade`: the plan decides whether orders go out; if they do, the broker sees
      exactly the order phase `Legs` describes, and the result carries its outcome. */
    method ExecuteTrade(now: Moment, market: Market) returns (outcome: TradeOutcome)
      modifies this, gateway
      ensures var plan := PlanTrade(now, market, old(AccountState()), maxRiskPct, maxSpreadPct);
        && (plan.Stop? ==> outcome == plan.outcome && gateway.Snapshot() == old(gateway.Snapshot()))
        && (plan.Go? ==>
              var run := Legs(old(gateway.Snapshot()), plan.straddle, plan.contracts, SpxPrice(market.closing, SpxRetries), now);
              outcome == Attempted(plan.straddle, plan.contracts, run.outcome) && gateway.Snapshot() == run.broker)
      ensures AccountState() == if SizingReached(now, market, maxSpreadPct) then Refreshed(old(AccountState()), market.account) else old(AccountState())
    {
      if !IsMarketOpen(now) {
        return MarketClosed;
      }
      var best := FindBestStraddle(now, market.spot, market.quotes);
      if best.Err? {
        return Raised(best.fault);
      }
      if best.value.None? {
        return NoStraddle;
      }
      var s := best.value.value;
      var size := CalculatePositionSize(s.totalPremium, market.account);
      if size.Err? {
        return Raised(ZeroDivision);
      }
      var contracts := size.value;
      if contracts < 1 {
        return NoContracts;
      }
      if EstimatedCost(s.totalPremium, contracts) > buyingPower {
        return OverBuyingPower;
      }
      var legs := PlaceLegs(now, s, contracts, market.closing);
      return Attempted(s, contracts, legs);
    }

    /** The order phase of `execute_trade`: the call leg, then the put leg, the cancel of the
      call when the put fails, the two fill checks and the trade record. */
    method PlaceLegs(now: Moment, s: StraddleQuote, contracts: int, closing: PriceFeed) returns (outcome: LegOutcome)
      modifies gateway
      ensures var run := Legs(old(gateway.Snapshot()), s, contracts, SpxPrice(closing, SpxRetries), now);
        outcome == run.outcome && gateway.Snapshot() == run.broker
    {
      ghost var b := gateway.Snapshot();
      LegsStages(b, s, contracts, SpxPrice(closing, SpxRetries), now);
      var callId, callFill := PlaceOrderWithRetry(s.callCode, contracts, s.callBid, s.callAsk, MaxAttempts);
      if !Truthy(callId) {
        return CallFailed;
      }
      var putId, putFill := PlaceOrderWithRetry(s.putCode, contracts, s.putBid, s.putAsk, MaxAttempts);
      if !Truthy(putId) {
        CancelOrder(callId.value);
        return PutFailed(callId.value);
      }
      var callFilled, callPrice := WaitForFill(callId.value, VerifyPollRounds);
      var putFilled, putPrice := WaitForFill(putId.value, VerifyPollRounds);
      var spx := GetSpxPrice(closing, SpxRetries);
      if spx.Err? {
        return PriceRaised(callId.value, putId.value);
      }
      var trade := TradeResult(
        now, spx.value, s.strike, s.callCode, s.putCode, callId.value, putId.value,
        callFill, putFill,
        if callFilled then contracts else 0,
        if putFilled then contracts else 0,
        contracts,
        TotalCost(callFill, putFill, contracts),
        if callFilled && putFilled then Filled else Partial,
        s.liquidityScore);
      return Recorded(trade);
    }
  }
}
