# SPX straddle bot — a Dafny model of its trading core

The bot buys one at-the-money SPXW straddle (a call and a put on the same strike and
weekly expiry) per run, through a broker gateway. This project models the decisions
it makes on the way and proves what they guarantee:

- the **SPX price gate**: the broker's price, else up to three backup reads, accepted
  only inside [3000, 7000];
- the **trading calendar**: the session gate (weekday, 2025 holiday list, 09:30–16:00
  inclusive) and the Friday expiry it trades;
- the **strike window**: 5-, 10- or 25-point interval by price band, 21 strikes around
  the rounded spot, the call and put codes requested for each;
- **candidate selection**: quote validation, spread and liquidity metrics, the spread
  filter, and the pick by least `distance * 10 + (100 - liquidity)`, ties to the first;
- **sizing**: the bot's own risk/buying-power sizing, and the position manager's tiered
  sizing, trade validation and P&L bookkeeping, with its no-limits subclass;
- **order execution**: limit pricing, the place / poll / cancel / reprice retry loop
  against a broker that answers from a script and records every request, and the
  call-then-put sequence of `execute_trade` with its one-cancel unwind.

Pure computations are functions. The broker is a class (`Gateway.OrderGateway`) whose
methods consume scripted replies and append to a request log. The bot (`Bot.StraddleBot`)
and the position manager (`Positions.PositionManager`) are classes whose methods update
their fields. Each of those methods is proved equal to a specification function, which has its own row in the table below:

- `Execution.Poll` specifies `wait_for_fill`;
- `Execution.Retry` specifies `place_order_with_retry`;
- `Execution.Legs` specifies the order phase of `execute_trade`;
- `Bot.PlanTrade` specifies what `execute_trade` decides before any order goes out;
- `Bot.BestStraddle` specifies `find_best_straddle`.

The lemmas state properties of those functions.

Modules:

| module | file | covers |
|---|---|---|
| Common | common.dfy | Option, Result, faults, Python `int()` and `round()` |
| Decimal | decimal.dfy | `str(int)`, two-digit date fields |
| OptionCodes | codes.dfy | SPXW codes |
| Calendar | calendar.dfy | session gate, expiry |
| Selection | selection.dfy | strikes, codes requested, quotes, candidates, choice |
| Pricing | pricing.dfy | `calculate_order_price` |
| Gateway | gateway.dfy | the broker |
| Execution | execution.dfy | polling, retry loop, two legs |
| Positions | position_manager.dfy | both position managers |
| Bot | bot.dfy | the bot object |

Behaviour worth noting:

- **Strike interval:** a price of exactly 5000 gets the 25-point interval.
- **Expiry:** on a Friday at or after 16:00 it rolls to the next Friday.
- **Liquidity score:** the volume part is total volume / 10, capped at 100.
- **Ranking:** the choice minimises one weighted sum, `distance * 10 + (100 - liquidity)`.
- **Sizing:** the bot's sizing returns 0 contracts when buying power does not cover one.
- **Urgency:** it is a yes/no flag that is on from the third attempt onwards.
- **Put failure:** the unwind sends one cancel request for the call, which has already
  filled. The call is not sold, the cancel's outcome is not checked, and no record is
  written.
- **Trade cost:** the record's `total_cost` uses the fill prices of the retry loops, and
  the later verification polls do not change it.

## Model

| member | source | states |
|---|---|---|
| Common.Truncate | src/production_strategy_complete.py:359-362 | Python `int()` of a float truncates toward zero: the result is within one of the argument, at most it in size, with the argument's sign |
| Common.TruncateIsFloorWhenNonNegative | src/production_strategy_complete.py:359 | on non-negative values truncation is the floor |
| Common.WholeUnits | src/production_strategy_complete.py:359-362 | for a positive unit and n >= 1, n whole units fit the budget exactly when n <= `int(budget / unit)` |
| Common.WholeUnitsCount | src/production_strategy_complete.py:359-362 | `int(budget / unit)` is positive exactly when one unit fits, its units fit, and one more never does |
| Common.RoundHalfEven | src/production_strategy_complete.py:408 | Python `round()`: within 0.5 of the argument, strictly closer except on a tie, and even on a tie |
| Common.RoundHalfEvenMonotone | src/production_strategy_complete.py:408 | rounding never reverses the order of two values |
| Common.RoundCents | src/production_strategy_complete.py:525-531 | `round(x, 2)` lands within half a cent of x |
| Common.RoundCentsMonotone | src/production_strategy_complete.py:525-531 | rounding to the cent keeps the order of two prices |
| Decimal.DigitChar | src/production_strategy_complete.py:421-422 | a digit value yields a digit character |
| Decimal.NatDigits | src/production_strategy_complete.py:421-422 | `str(n)` of a non-negative integer is a non-empty digit string with no leading zero unless n is 0 |
| Decimal.NatDigitsRoundTrip | src/production_strategy_complete.py:421-422 | reading the digits of `str(n)` back gives n |
| Decimal.IntToDecimalInjective | src/production_strategy_complete.py:421-422 | two integers with the same decimal text are equal |
| Decimal.TwoDigits | src/production_strategy_complete.py:402 | a `%y`/`%m`/`%d` field is two digits denoting the value modulo 100 |
| OptionCodes.CodeText | src/production_strategy_complete.py:421-422 | a code's text is `US.SPXW`, the expiry, C or P, the strike in decimal and `000`, each at its position |
| OptionCodes.CodesDifferOnlyInLetter | src/production_strategy_complete.py:421-422 | the call and put texts of a strike have the same length and differ only in the C/P letter |
| OptionCodes.CodeTextInjective | src/production_strategy_complete.py:437-441 | for expiries of one width, two codes have the same text exactly when their expiry, side and strike agree, so matching quotes by text is matching them by parts |
| Calendar.Weekday | src/production_strategy_complete.py:396 | `date.weekday()` of a day ordinal, Monday 0 to Sunday 6; `FridayGap` states how it advances over a week |
| Calendar.ToCivil | src/production_strategy_complete.py:303 | the year, month and day of a day ordinal, as the holiday test and `strftime` read them; `ToCivilInRange` bounds the month and day, and `FridayCloseIsOpenButRolls` pins one date |
| Calendar.IsMarketOpen | src/production_strategy_complete.py:293-314 | `is_market_open`: open exactly on a weekday that is not on the 2025 holiday list, from 09:30 to 16:00 inclusive; `OpenSessionExpiry`, `FridayCloseIsOpenButRolls` and `Bot.PlanGoesOnlyWhenSafe` state what follows from it |
| Calendar.DaysToFriday | src/production_strategy_complete.py:396-399 | 0 to 7 days ahead to a Friday with no Friday in between; 0 exactly on a Friday before 16:00, 7 exactly on a Friday at or after 16:00 |
| Calendar.FridayGap | src/production_strategy_complete.py:396 | counting days ahead moves `weekday()` by that many days modulo 7, and a gap of at most a week that ends on a Friday passes no other Friday |
| Calendar.ExpiryDate | src/production_strategy_complete.py:394-401 | the traded Friday: today plus `DaysToFriday`; `DaysToFriday` and `OpenSessionExpiry` state which Friday it is |
| Calendar.ExpiryCode | src/production_strategy_complete.py:401-402 | the expiry string is six digits |
| Calendar.ExpiryCodeFields | src/production_strategy_complete.py:402 | the six digits read back, pair by pair, as the Friday's year modulo 100, its month and its day |
| Calendar.OpenSessionExpiry | src/production_strategy_complete.py:293-314 | during an open session the expiry is this week's Friday, except at exactly 16:00:00 on a Friday, which still counts as open but has already rolled to the next Friday |
| Calendar.ToCivilInRange | src/production_strategy_complete.py:303 | the date of any ordinal has a month in 1..12 and a day in 1..31 |
| Calendar.FridayCloseIsOpenButRolls | src/production_strategy_complete.py:309 | Friday 2025-01-03 at 16:00 is an open session whose expiry is seven days later |
| Selection.StrikeInterval | src/production_strategy_complete.py:378-387 | interval 5 exactly below 4000, 10 exactly on [4000, 5000), 25 exactly from 5000 up |
| Selection.NearestMultiple | src/production_strategy_complete.py:408 | the interval times the rounded quotient lies within half an interval of the price |
| Selection.BaseStrike | src/production_strategy_complete.py:407-408 | the at-the-money strike is a multiple of the interval within half an interval of the price |
| Selection.StrikesBelowLength | src/production_strategy_complete.py:410-414 | the strikes up to an offset number at most one per offset, all positive, the last one at the highest offset |
| Selection.StrikesBelowFull | src/production_strategy_complete.py:410-414 | when the lowest offset is positive, the list holds every offset in order |
| Selection.StrikesBelowSteps | src/production_strategy_complete.py:410-414 | adjacent strikes in the list are one interval apart |
| Selection.StrikesBelowMembers | src/production_strategy_complete.py:413-414 | every listed strike is positive and sits at an offset between -10 and the bound |
| Selection.StrikesBelowComplete | src/production_strategy_complete.py:413-414 | every positive offset in range is listed |
| Selection.StrikeWindow | src/production_strategy_complete.py:407-414 | the `strikes` list: the base strike plus i intervals for i from -10 to 10, keeping the positive ones; `StrikeWindowIsWindow`, `StrikeWindowGrid` and `StrikeWindowFull` state it, and `BuildStrikes` computes it |
| Selection.BuildStrikes | src/production_strategy_complete.py:407-414 | the loop builds exactly the strike window of the price |
| Selection.StrikeWindowIsWindow | src/production_strategy_complete.py:410-414 | a strike is in the list exactly when it is positive and within ten intervals of the base on the grid |
| Selection.StrikeWindowGrid | src/production_strategy_complete.py:410-414 | at most 21 positive strikes, each a multiple of the interval, rising by one interval, strictly increasing |
| Selection.StrikeWindowFull | src/production_strategy_complete.py:411-414 | when the base is above ten intervals, there are exactly 21 strikes and the middle one is the base |
| Selection.GatedPriceKeepsFullWindow | src/production_strategy_complete.py:261 | every price the gate accepts yields the full 21-strike window |
| Selection.CodeList | src/production_strategy_complete.py:417-423 | `all_codes`: the call code then the put code of each strike, in strike order; `CodeListShape` states each position |
| Selection.StrikeMap | src/production_strategy_complete.py:418-425 | `strike_map`: each requested code to its side and strike; `StrikeMapInvertsCodes` states its keys and values |
| Selection.CodeListShape | src/production_strategy_complete.py:420-423 | two codes per strike, the call at 2k and the put at 2k+1 |
| Selection.StrikeMapInvertsCodes | src/production_strategy_complete.py:424-425 | the map's keys are exactly the requested codes, each mapped to the side and strike it was built from |
| Selection.BuildCodes | src/production_strategy_complete.py:417-425 | the loop builds that code list and that map |
| Selection.Lookup | src/production_strategy_complete.py:440-445 | a code's quote is the first snapshot row with that code, and absent exactly when no row has it |
| Selection.SpreadPct | src/production_strategy_complete.py:102-112 | the spread percentage is 100 for a non-positive ask, within [0, 100] for a sound quote, strictly inside for 0 < bid < ask |
| Selection.LiquidityScore | src/production_strategy_complete.py:464-472 | the score is within [0, 100] for a non-negative spread |
| Selection.LiquidityScoreMonotone | src/production_strategy_complete.py:464-472 | more volume and a tighter spread never lower the score |
| Selection.ValidLeg | src/production_strategy_complete.py:448-451 | the quote test of one leg, bid > 0, ask > 0 and bid < ask; `Candidate` yields a straddle exactly when both legs pass it |
| Selection.StraddleQuote.CallSpreadPct | src/production_strategy_complete.py:102-106 | the `call_spread_pct` property: the call's spread as a percentage of its ask, 100 when the ask is not positive; `SpreadPct` states its range |
| Selection.StraddleQuote.PutSpreadPct | src/production_strategy_complete.py:108-112 | the `put_spread_pct` property, the same for the put leg; `SpreadPct` states its range |
| Selection.Candidate | src/production_strategy_complete.py:436-488 | a strike yields a straddle exactly when both legs have a quote with 0 < bid < ask; each leg's bid, ask and volume are those of the first row with its code; the premium is the sum of the two mids and is positive; it carries the strike's codes, the distance to spot and the score of its volumes and average spread |
| Selection.Admissible | src/production_strategy_complete.py:491 | the filter `avg_spread_pct <= max_spread_pct` a built straddle must pass to be kept; `AdmittedComplete` and `CandidatesComplete` state that exactly the passing strikes are kept |
| Selection.Admitted | src/production_strategy_complete.py:433-492 | the straddles a builder yields for the strikes, in strike-list order, keeping those that pass the filter; `AdmittedSound`, `AdmittedComplete` and `AdmittedOrdered` state it |
| Selection.AdmittedSound | src/production_strategy_complete.py:436-492 | the filter keeps no more straddles than strikes, each the straddle built for a listed strike and within the spread limit |
| Selection.AdmittedComplete | src/production_strategy_complete.py:490-492 | a listed strike is kept exactly when its straddle exists and is within the spread limit |
| Selection.AdmittedOrdered | src/production_strategy_complete.py:436-492 | over an increasing strike list the kept straddles come out in increasing strike order |
| Selection.Candidates | src/production_strategy_complete.py:433-492 | the `straddles` list: `Admitted` with `Candidate` as the builder; `CandidatesSound`, `CandidatesComplete` and `CandidatesOrdered` state it, and `BuildCandidates` computes it |
| Selection.CandidatesSound | src/production_strategy_complete.py:433-497 | every candidate is the straddle its strike builds, within the spread limit |
| Selection.CandidatesComplete | src/production_strategy_complete.py:433-497 | a window strike appears among the candidates exactly when it is admissible |
| Selection.CandidatesOrdered | src/production_strategy_complete.py:433-497 | candidates come in increasing strike order |
| Selection.BuildCandidates | src/production_strategy_complete.py:433-497 | the loop builds exactly that candidate list |
| Selection.SelectionKey | src/production_strategy_complete.py:505-508 | the key `min` is taken over, `distance_from_spot * 10 + (100 - liquidity_score)`; `BestIndex`, `SelectBest` and `Bot.ChosenIsBest` state that the pick minimises it |
| Selection.BestIndex | src/production_strategy_complete.py:505-508 | the chosen index has the least key, and every earlier entry has a strictly greater key |
| Selection.SelectBest | src/production_strategy_complete.py:499-508 | no choice exactly for an empty list; otherwise a member with the least key, the lowest strike among equal keys when strikes increase |
| Pricing.LimitPrice | src/production_strategy_complete.py:518-531 | the price of `calculate_order_price` before rounding: 1% over the ask when urgent or the spread is over 5%, 60% into the spread below 1%, 75% otherwise; `PatientPriceInsideSpread` and `UrgentPriceDominates` state where it lies |
| Pricing.OrderPrice | src/production_strategy_complete.py:518-531 | the price sent is within half a cent of the limit price of the branch taken |
| Pricing.PatientPriceInsideSpread | src/production_strategy_complete.py:526-531 | on a sound quote with a spread of at most 5%, a patient price lies strictly inside the spread, 60% up below a 1% spread and 75% up otherwise |
| Pricing.UrgentPriceDominates | src/production_strategy_complete.py:523-525 | urgent means 1% over the ask; no patient price is higher; over a 5% spread, patient and urgent agree |
| Pricing.OrderPriceUrgencyMonotone | src/production_strategy_complete.py:523-531 | after rounding, urgency still never lowers the price |
| Pricing.RoundCentsKeepsCents | src/production_strategy_complete.py:525 | a price in whole cents is left alone by rounding |
| Pricing.PatientOrderPriceWithinQuote | src/production_strategy_complete.py:526-531 | for quotes in whole cents the rounded patient price stays within [bid, ask] |
| Gateway.PlaceStep | src/production_strategy_complete.py:545-556 | a placement consumes the next scripted reply and logs the request with its answer, leaving the query script alone |
| Gateway.QueryStep | src/production_strategy_complete.py:577-584 | a status query consumes the next scripted row and logs it, leaving the placement script alone |
| Gateway.CancelStep | src/production_strategy_complete.py:610-616 | a cancel only appends its request to the log |
| Gateway.OrderGateway.PlaceOrder | src/production_strategy_complete.py:545-553 | the gateway's new state and reply are those of one placement step |
| Gateway.OrderGateway.QueryOrder | src/production_strategy_complete.py:577-581 | the gateway's new state and reply are those of one query step |
| Gateway.OrderGateway.CancelOrder | src/production_strategy_complete.py:610-616 | the gateway's new state is that of one cancel step |
| Execution.Poll | src/production_strategy_complete.py:572-605 | `wait_for_fill`, one query per round: a fill on FILLED_ALL with its average price, no fill on a terminal state or when the rounds run out; `PollQueries`, `PollStops` and `PollEnds` state it, and `Bot.StraddleBot.WaitForFill` computes it |
| Execution.PollQueries | src/production_strategy_complete.py:576-602 | polling only appends queries for this order, one per round and at least one, the k-th getting the k-th scripted reply |
| Execution.PollStops | src/production_strategy_complete.py:583-605 | polling stops early only on a fill or a terminal state; it reports a fill exactly when the last reply was FILLED_ALL, with that reply's average price, and 0.0 otherwise |
| Execution.PollEnds | src/production_strategy_complete.py:587-590 | a reported fill is the last logged reply |
| Execution.PartialFillKeepsPolling | src/production_strategy_complete.py:592-595 | a partial fill does not stop polling |
| Execution.TerminalStopsPolling | src/production_strategy_complete.py:597-600 | a cancelled, failed, disabled or deleted order stops polling at once with no fill |
| Execution.Attempt | src/production_strategy_complete.py:539-566 | one pass of the retry loop: place, wait up to 10 rounds, and cancel an accepted order that did not fill; `AttemptLog` and `AttemptEnd` state its requests |
| Execution.AttemptLog | src/production_strategy_complete.py:545-566 | an attempt opens with exactly one placement, carrying the next scripted reply, and places nothing after it |
| Execution.AttemptEnd | src/production_strategy_complete.py:555-566 | an attempt ends on the fill reply when filled; an accepted order that did not fill ends with its cancel |
| Execution.Retry | src/production_strategy_complete.py:533-570 | `place_order_with_retry` from a given attempt index; `RetryPlacements`, `RetryPricing`, `RetryCancels`, `RetryFailureCancelsAll`, `RetrySuccess` and `RetryPricesNonDecreasing` state it, and `Bot.StraddleBot.PlaceOrderWithRetry` computes it |
| Execution.RetryPlacements | src/production_strategy_complete.py:537-570 | the loop places at most max_attempts orders, and exactly that many when it returns no id |
| Execution.RetryPricing | src/production_strategy_complete.py:537-553 | every placement is for the same code and quantity, priced patiently on attempts 1–2 and urgently from attempt 3 |
| Execution.RetryCancels | src/production_strategy_complete.py:562-566 | every accepted order that did not fill is cancelled before the next placement |
| Execution.RetryFailureCancelsAll | src/production_strategy_complete.py:566-570 | when the loop gives up, every order it placed has been cancelled |
| Execution.RetrySuccess | src/production_strategy_complete.py:560-563 | a returned id ends the log with its FILLED_ALL reply at the returned price; no id means price 0.0 |
| Execution.RetryPricesNonDecreasing | src/production_strategy_complete.py:539-540 | on a sound quote, successive placement prices never fall |
| Execution.TotalCost | src/production_strategy_complete.py:691 | `total_cost`: the two retry fill prices times 100 times the contracts; `VerificationRecord` and `RecordedTrade` state that the record carries it |
| Execution.Verification | src/production_strategy_complete.py:686-709 | the two 30-round verification polls and then the record; `VerificationOnlyQueries`, `VerificationRecord` and `RecordedTrade` state it |
| Execution.PutLeg | src/production_strategy_complete.py:675-684 | the put through the retry loop, and without an id one cancel for the call and no record; `PutLegPlacements`, `PutLegKeepsCallId` and `PutFailureUnwindsCall` state it |
| Execution.Legs | src/production_strategy_complete.py:662-709 | the order phase of `execute_trade`: the call through the retry loop, stopping on a falsy id, then `PutLeg`; `LegsOrder`, `CallFailureStopsBeforePut` and `PutOnlyAfterCallFilled` state it, and `Bot.StraddleBot.PlaceLegs` computes it |
| Execution.VerificationOnlyQueries | src/production_strategy_complete.py:687-688 | the verification polls only query and place nothing |
| Execution.PutLegPlacements | src/production_strategy_complete.py:676-688 | after the call, every placement is a put for the same quantity, at most three of them |
| Execution.LegsOrder | src/production_strategy_complete.py:666-688 | the order phase places at most six orders, each for the straddle's call or put code and the sized quantity, and no call after a put |
| Execution.CallFailureStopsBeforePut | src/production_strategy_complete.py:671-673 | when the call gets no id the put is never placed |
| Execution.PutOnlyAfterCallFilled | src/production_strategy_complete.py:666-684 | the put phase starts only after the call's FILLED_ALL reply, and every later outcome refers to that call id |
| Execution.PutLegKeepsCallId | src/production_strategy_complete.py:676-709 | every outcome after the call carries the call's id |
| Execution.PutFailureUnwindsCall | src/production_strategy_complete.py:681-684 | a put failure adds exactly one request, the cancel of the filled call, and returns no record |
| Execution.VerificationRecord | src/production_strategy_complete.py:686-709 | the record takes its fill prices and cost from the retry loops and its quantities and status from the verification polls |
| Execution.RecordedTrade | src/production_strategy_complete.py:691-709 | `total_cost` is (call + put retry fill price) x 100 x contracts; each leg reports all contracts or none; the status is filled exactly when both verification polls saw a fill |
| Execution.RejectedPutScenario | src/production_strategy_complete.py:676-684 | a call that fills and three rejected puts end with one cancel for the call, after patient, patient, urgent put prices |
| Bot.Sane | src/production_strategy_complete.py:261 | the accepted band 3000 <= price <= 7000; `SpxPrice` and `FirstSaneFrom` never return a price outside it |
| Bot.BackupPrice | src/production_strategy_complete.py:272-277 | the price one backup attempt reads: the last price, else the latest close, and none when it raised; `FirstSaneIsFirst` states which attempt wins |
| Bot.FirstSaneFrom | src/production_strategy_complete.py:268-289 | any price the backup loop returns lies inside [3000, 7000] |
| Bot.FirstSaneIsFirst | src/production_strategy_complete.py:268-289 | the backup loop finds nothing exactly when no attempt reads a sane price, and otherwise returns the first attempt's price that does |
| Bot.SpxPrice | src/production_strategy_complete.py:252-291 | the price returned is inside the band, the broker's sane price wins, and the only failure is the RuntimeError |
| Bot.SpxPriceFails | src/production_strategy_complete.py:252-291 | the price fails exactly when neither the broker nor any backup attempt offers a sane price |
| Bot.GetSpxPrice | src/production_strategy_complete.py:252-291 | the loop returns that price |
| Bot.PositionSize | src/production_strategy_complete.py:349-374 | the bot's size never goes below 0, and it raises exactly when the premium is 0 |
| Bot.PositionSizeBounds | src/production_strategy_complete.py:355-374 | for a positive premium, at least one contract exactly when the buying power covers one; never more than the buying power pays for; more than one only within the risk budget |
| Bot.BufferRefusesSizedContract | src/production_strategy_complete.py:650-660 | with 2500 buying power and a 25.00 premium the sizing grants one contract, which the 2% buffer check then refuses |
| Bot.Refreshed | src/production_strategy_complete.py:228-248 | a failed query keeps the account; otherwise cash is `us_cash` or 0, total value is `total_assets` or else the cash, and buying power is `us_power`, else `power`, else `max_power_short`, else 0 |
| Bot.RefreshReplacesAccount | src/production_strategy_complete.py:236-244 | a successful query replaces the whole account, so the previous account does not matter and refreshing twice with the same reply equals refreshing once |
| Bot.BestStraddle | src/production_strategy_complete.py:389-514 | `find_best_straddle` at one moment, price feed and quote snapshot; `BestStraddleChoice`, `NoneWhenNoneAdmissible`, `ChosenIsBest` and `FoundStraddleIsPriced` state it, and `Bot.StraddleBot.FindBestStraddle` computes it |
| Bot.BestStraddleChoice | src/production_strategy_complete.py:389-514 | the chosen straddle is, among the admissible straddles of window strikes for this week's expiry, one with the least key, lowest strike among ties; there is none exactly when the snapshot failed or no window strike is admissible |
| Bot.NoneWhenNoneAdmissible | src/production_strategy_complete.py:499-501 | the window yields no straddle exactly when no window strike is admissible |
| Bot.ChosenIsBest | src/production_strategy_complete.py:503-508 | the straddle picked has the least key over all admissible window strikes, ties going to the lowest strike |
| Bot.FoundStraddleIsPriced | src/production_strategy_complete.py:454-456 | a straddle that was found has a positive premium |
| Bot.EstimatedCost | src/production_strategy_complete.py:650 | the buffered order cost, premium times 100 times contracts times 1.02; `PlanGoesOnlyWhenSafe` states that buying power covers it, and `BufferRefusesSizedContract` shows the buffer refusing a sized trade |
| Bot.PlanTrade | src/production_strategy_complete.py:622-660 | what `execute_trade` decides before its first order; `PlanGoesOnlyWhenSafe` and `PlanNeverDividesByZero` state it, and `Bot.StraddleBot.ExecuteTrade` follows it |
| Bot.PlanGoesOnlyWhenSafe | src/production_strategy_complete.py:627-660 | orders go out only on an open market, for the chosen straddle, for the sized count of at least one, whose buffered cost the refreshed buying power covers |
| Bot.PlanNeverDividesByZero | src/production_strategy_complete.py:643 | the sizing inside `execute_trade` never raises |
| Bot.StraddleBot.constructor | src/production_strategy_complete.py:138-151 | zero balances, the configured or default risk and spread limits, and a no-limits manager at the default capital |
| Bot.StraddleBot.RefreshAccountInfo | src/production_strategy_complete.py:228-248 | the account fields become the refreshed account |
| Bot.StraddleBot.CalculatePositionSize | src/production_strategy_complete.py:349-374 | the account is refreshed first, then sized on the fresh figures |
| Bot.StraddleBot.WaitForFill | src/production_strategy_complete.py:572-605 | the result and the gateway's new state are those of the polling function |
| Bot.StraddleBot.CancelOrder | src/production_strategy_complete.py:607-618 | the gateway's new state is that of one cancel step |
| Bot.StraddleBot.PlaceOrderWithRetry | src/production_strategy_complete.py:533-570 | the result and the gateway's new state are those of the retry function |
| Bot.StraddleBot.FindBestStraddle | src/production_strategy_complete.py:389-514 | the method returns the best-straddle function's answer |
| Bot.StraddleBot.ExecuteTrade | src/production_strategy_complete.py:622-718 | when the plan stops, the broker saw nothing; when it goes, the broker saw exactly the order phase and the result carries its outcome; the account is refreshed exactly when sizing was reached |
| Bot.StraddleBot.PlaceLegs | src/production_strategy_complete.py:662-709 | the outcome and the gateway's new state are those of the order-phase function |
| Positions.RiskContracts | src/position_manager.py:89-99 | `max_contracts_risk` is 1 for a non-positive premium; otherwise it is the number of straddles the risk budget pays for: positive exactly when one fits, affordable, and one more never is |
| Positions.TierCap | src/position_manager.py:106-114 | the tier's contract cap: 3 from 100000, 2 from 50000, 1 below; `TieredSize` never exceeds it |
| Positions.Settle | src/position_manager.py:123-135 | the end of the tiered sizing once `base_contracts` is known: the small-account exception and the clamp to the risk count; `TieredSizeAboveTenThousand` and `TieredSizeZero` state the result |
| Positions.TieredSize | src/position_manager.py:77-148 | 0 to the tier cap; raises exactly at capital 0; 0 for any other capital under 4000; 1 from 4000 to under 10000 |
| Positions.TieredSizeAboveTenThousand | src/position_manager.py:106-135 | from 10000 up, the lesser of the tier cap and the risk count when that is positive, else 1 or 0 by the 10%-of-capital exception |
| Positions.TieredSizeWithinBudget | src/position_manager.py:123-135 | two or more contracts always fit the risk budget |
| Positions.TieredSizeZero | src/position_manager.py:106-135 | with at least 4000, the size is 0 exactly in a tier of 10000 or more when the premium is positive and exceeds both a tenth of the capital and the risk budget |
| Positions.NoLimitsSize | src/position_manager_no_limits.py:21-59 | at least one contract, more only within the risk budget, and the risk count whenever one straddle fits |
| Positions.NoLimitsNeverBelowTiered | src/position_manager_no_limits.py:36-44 | lifting the limits never lowers the size |
| Positions.TieredValidation | src/position_manager.py:218-249 | raises exactly at capital 0; for positive capital, accepts exactly when the trade fits the risk limit, the capital is at least ten premiums, and today's loss is within 5% of the capital |
| Positions.SmallAccountSizeFailsValidation | src/position_manager.py:114-118 | a 5000 account with a 300 premium is sized one contract that the validation then rejects |
| Positions.TieredMultiplePassesRiskCheck | src/position_manager.py:229-235 | a tiered size of two or more always passes the risk check; only the capital and daily-loss checks can reject it |
| Positions.ConfiguredCapital | src/position_manager.py:42-45 | the configured capital, or 100000 when it is missing or zero, and never zero |
| Positions.PositionManager.constructor | src/position_manager.py:17-52 | tiered policy, the given risk limit, capital as configured, current equal to initial, no daily P&L |
| Positions.PositionManager.NoLimits | src/position_manager_no_limits.py:16-19 | no-limits policy, the default 2% risk, capital as configured, no daily P&L |
| Positions.PositionManager.CalculatePositionSize | src/position_manager.py:77-148 | never negative; the no-limits policy always gives at least one; the tiered one raises exactly at capital 0; two or more fit the risk budget |
| Positions.PositionManager.ValidateTradeRisk | src/position_manager_no_limits.py:61-77 | the no-limits policy accepts every trade; a tiered acceptance implies today's loss is within 5%; the tiered check raises exactly at capital 0 |
| Positions.PositionManager.UpdateCapital | src/position_manager.py:251-257 | the P&L moves both current capital and today's P&L; the initial capital is kept |
| Positions.PositionManager.ResetDailyPnl | src/position_manager.py:259-262 | today's P&L becomes 0 and nothing else changes |
| Positions.PositionManager.PositionSummary | src/position_manager.py:264-276 | the initial and current capital, today's P&L and the risk limit are the manager's own; the total return is the capital change as a percentage of the initial capital; the maximum daily risk is 5% of the current capital and the remaining daily risk is that plus today's P&L, negative exactly when the validation's daily-loss check fails |
| Positions.PositionManager.RecommendedContracts | src/position_manager.py:278-300 | raises exactly at capital 0; otherwise the size and verdict are those of the object's own sizing and validation, the total risk is size times premium, the risk percentage is the total risk as a percentage of the current capital, and the premium, current capital and today's P&L are echoed unchanged |
| Positions.DailyLossBlocksTrading | src/position_manager.py:243-247 | once today's loss exceeds 5% of capital, the tiered validation refuses every trade |

## Left out

- Connecting to the broker (`connect`, `_setup_account`), `check_existing_positions` (its result is only logged), `log_trade`, `run` and `main`: these are I/O and process control.
- `PositionManager.__init__` with a broker client, `refresh_capital` and `get_order_prices`: they query an account or quote service. The bot never uses them.
- `_validate_minimum_capital`: it only logs.
- Sleeps are left out. Each polling round is one query, so a timeout of n seconds is n rounds.
- `time_module` is never imported under that name in src/production_strategy_complete.py. It might come from the broker library's wildcard import. If it does not, each sleep would raise NameError; the model assumes the sleeps succeed.
- Clock reads: `is_market_open`, `find_best_straddle` and `execute_trade` each read the clock. The model uses one moment for all three. Time-zone conversion is left out: the moment is already US/Eastern.
- Floats are exact reals. Binary rounding and NaN are not modelled; `round(x, 2)` is half-even on the exact value.
- Configuration keys that the core never reads after `__init__` are not stored: `order_timeout_s`, `connection_retries`, `price_buffer_pct` and `paper_trading`.
- The order side (always BUY), the order type and the account id are left out of each request.
- Quote rows carry a code as its expiry, side and strike rather than its text. `OptionCodes.CodeTextInjective` shows the two match the same rows for the bot's six-digit expiries.
- A missing volume column (`get('volume', 0)`) is not modelled: every row has a volume.
- Of the `notes` string of a trade record, only the liquidity score it reports is kept.
- `PositionManager.positions` (src/position_manager.py:28) is set to an empty list and never read or updated, so the model has no such field.
- Positions.TieredValidation: for negative capital its contract states only that the check does not raise.
- Calendar.ExpiryCode: its own contract states only the shape (six digits). `Calendar.ExpiryCodeFields` states what the digits are.
- Bot.PositionSize: its own contract states only the error case and the sign. `Bot.PositionSizeBounds` states the bounds.
