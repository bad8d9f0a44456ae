/** Order execution as functions of the broker state: fill polling (`wait_for_fill`), the
    place/poll/cancel/reprice loop (`place_order_with_retry`) and the two-leg sequence at the
    end of `execute_trade` (src/production_strategy_complete.py). Each function returns the
    broker after the requests it sent; the lemmas describe the request log. */
module Execution {
  import opened Common
  import opened Calendar
  import opened Selection
  import opened OptionCodes
  import opened Pricing
  import opened Gateway

  /** `place_order_with_retry` waits `timeout=10` seconds per attempt; at one query per second
      (`DEFAULT_FILL_CHECK_INTERVAL_S`) that is 10 polling rounds. */
  const RetryPollRounds: nat := 10
  /** The default `timeout=30` of the verification polls in `execute_trade`. */
  const VerifyPollRounds: nat := 30
  /** The default `max_attempts=3`. */
  const MaxAttempts: nat := 3

  // ---------------------------------------------------------------- wait_for_fill

  /** A reply on which `wait_for_fill` stops: a fill, or a terminal state. */
  predicate Decisive(r: Option<OrderRow>)
  {
    r.Some? && (r.value.status == FilledAll || IsTerminal(r.value.status))
  }

  predicate IsFill(r: Option<OrderRow>)
  {
    r.Some? && r.value.status == FilledAll
  }

  datatype PollResult = PollResult(broker: Broker, filled: bool, avgPrice: real)

  /** `wait_for_fill(order_id, timeout=rounds)`: query once a round; stop with the average price
      on FILLED_ALL, stop with no fill on a terminal state, keep going on anything else (a partial
      fill, another state, a failed query); no fill once the rounds are used up. */
  function Poll(b: Broker, id: OrderId, rounds: nat): PollResult
    decreases rounds
  {
    if rounds == 0 then PollResult(b, false, 0.0)
    else
      var q := QueryStep(b, id);
      if IsFill(q.out) then PollResult(q.broker, true, q.out.value.dealtAvgPrice)
      else if Decisive(q.out) then PollResult(q.broker, false, 0.0)
      else Poll(q.broker, id, rounds - 1)
  }

  lemma ScriptAtTail<T>(script: seq<T>, k: nat, default: T)
    ensures ScriptAt(Tail(script), k, default) == ScriptAt(script, k + 1, default)
  {
  }

  /** Polling only queries, only this order, at most once per round and at least once, and the
      k-th query receives the k-th scripted reply. */
  lemma {:induction false} PollQueries(b: Broker, id: OrderId, rounds: nat)
    ensures var p := Poll(b, id, rounds);
      && |b.events| <= |p.broker.events| <= |b.events| + rounds
      && (rounds > 0 ==> |p.broker.events| > |b.events|)
      && p.broker.events[..|b.events|] == b.events
      && p.broker.placeReplies == b.placeReplies
      && forall k :: |b.events| <= k < |p.broker.events| ==>
           p.broker.events[k] == Queried(id, ScriptAt(b.queryReplies, k - |b.events|, None))
    decreases rounds
  {
    if rounds > 0 {
      var q := QueryStep(b, id);
      if !Decisive(q.out) {
        PollQueries(q.broker, id, rounds - 1);
        var p := Poll(b, id, rounds);
        forall k | |q.broker.events| <= k < |p.broker.events|
          ensures p.broker.events[k] == Queried(id, ScriptAt(b.queryReplies, k - |b.events|, None))
        {
          ScriptAtTail(b.queryReplies, k - |q.broker.events|, None);
        }
        assert p.broker.events[..|q.broker.events|][..|b.events|] == b.events;
      }
    }
  }

  /** Polling stops early only on a decisive reply and never passes one; it reports a fill exactly
      when the last reply was FILLED_ALL, with that reply's average price, and 0.0 otherwise. */
  lemma {:induction false} PollStops(b: Broker, id: OrderId, rounds: nat)
    ensures var p, n := Poll(b, id, rounds), |Poll(b, id, rounds).broker.events| - |b.events|;
      && (forall k :: 0 <= k < n - 1 ==> !Decisive(ScriptAt(b.queryReplies, k, None)))
      && (n < rounds ==> n > 0 && Decisive(ScriptAt(b.queryReplies, n - 1, None)))
      && (p.filled <==> n > 0 && IsFill(ScriptAt(b.queryReplies, n - 1, None)))
      && (p.filled ==> p.avgPrice == ScriptAt(b.queryReplies, n - 1, None).value.dealtAvgPrice)
      && (!p.filled ==> p.avgPrice == 0.0)
    decreases rounds
  {
    PollQueries(b, id, rounds);
    if rounds > 0 {
      var q := QueryStep(b, id);
      if !Decisive(q.out) {
        PollStops(q.broker, id, rounds - 1);
        PollQueries(q.broker, id, rounds - 1);
        var n := |Poll(b, id, rounds).broker.events| - |b.events|;
        assert n == |Poll(q.broker, id, rounds - 1).broker.events| - |q.broker.events| + 1;
        forall k | 0 <= k < n - 1 ensures !Decisive(ScriptAt(b.queryReplies, k, None)) {
          if k > 0 {
            ScriptAtTail(b.queryReplies, k - 1, None);
          }
        }
        if n > 1 {
          ScriptAtTail(b.queryReplies, n - 2, None);
        }
      }
    }
  }

  /** The log's last request is `e`. */
  predicate LastIs(evs: seq<Event>, e: Event)
  {
    |evs| > 0 && evs[|evs| - 1] == e
  }

  /** Polling never shortens the log; a reported fill is the last reply, FILLED_ALL for this
      order with the reported average price. */
  lemma {:induction false} PollEnds(b: Broker, id: OrderId, rounds: nat)
    ensures var p := Poll(b, id, rounds);
      var evs := p.broker.events;
      && |b.events| <= |evs|
      && (p.filled ==> |b.events| < |evs| && LastIs(evs, Queried(id, Some(OrderRow(FilledAll, p.avgPrice)))))
      && (!p.filled ==> p.avgPrice == 0.0)
    decreases rounds
  {
    if rounds > 0 {
      var q := QueryStep(b, id);
      if !Decisive(q.out) {
        PollEnds(q.broker, id, rounds - 1);
      }
    }
  }

  /** A partial fill never ends the wait: with rounds to spare, another query follows it. */
  lemma PartialFillKeepsPolling(b: Broker, id: OrderId, rounds: nat, avgPrice: real)
    requires rounds >= 2 && Head(b.queryReplies, None) == Some(OrderRow(FilledPart, avgPrice))
    ensures |Poll(b, id, rounds).broker.events| >= |b.events| + 2
  {
    PollQueries(QueryStep(b, id).broker, id, rounds - 1);
  }

  /** A terminal state ends the wait at once, with no fill. */
  lemma TerminalStopsPolling(b: Broker, id: OrderId, rounds: nat, row: OrderRow)
    requires rounds >= 1 && Head(b.queryReplies, None) == Some(row) && IsTerminal(row.status)
    ensures var p := Poll(b, id, rounds);
      !p.filled && p.avgPrice == 0.0 && p.broker.events == b.events + [Queried(id, Some(row))]
  {
  }

  // ---------------------------------------------------------------- place_order_with_retry

  datatype AttemptResult = AttemptResult(broker: Broker, orderId: Option<OrderId>, filled: bool, avgPrice: real)

  /** One pass of the retry loop's body at `price`: place the order; if the broker gave an id,
      wait up to 10 rounds for a fill, and cancel the order when none came. */
  function Attempt(b: Broker, code: OptionCode, qty: int, price: real): AttemptResult
  {
    var placed := PlaceStep(b, code, qty, price);
    if placed.out.None? then AttemptResult(placed.broker, None, false, 0.0)
    else
      var id := placed.out.value;
      var p := Poll(placed.broker, id, RetryPollRounds);
      if p.filled then AttemptResult(p.broker, Some(id), true, p.avgPrice)
      else AttemptResult(CancelStep(p.broker, id), Some(id), false, 0.0)
  }

  /** How an attempt's log begins: one placement, appended to the log it started from, whose
      reply is the attempt's order id; nothing after it is a placement. */
  lemma AttemptLog(b: Broker, code: OptionCode, qty: int, price: real)
    ensures var a := Attempt(b, code, qty, price);
      var evs, origin := a.broker.events, |b.events|;
      && origin < |evs| && evs[..origin] == b.events
      && evs[origin] == Placed(code, qty, price, a.orderId)
      && a.orderId == Head(b.placeReplies, None)
      && forall k :: origin < k < |evs| ==> !evs[k].Placed?
  {
    var a := Attempt(b, code, qty, price);
    var placed := PlaceStep(b, code, qty, price);
    var e := Placed(code, qty, price, placed.out);
    if placed.out.None? {
      assert a == AttemptResult(placed.broker, None, false, 0.0);
      PlacementOpensLog(placed.broker.events, b.events, e, []);
    } else {
      var id := placed.out.value;
      var p := Poll(placed.broker, id, RetryPollRounds);
      PollQueries(placed.broker, id, RetryPollRounds);
      if p.filled {
        assert a == AttemptResult(p.broker, Some(id), true, p.avgPrice);
        PlacementOpensLog(p.broker.events, b.events, e, []);
      } else {
        assert a == AttemptResult(CancelStep(p.broker, id), Some(id), false, 0.0);
        PlacementOpensLog(p.broker.events, b.events, e, [CancelSent(id)]);
      }
    }
  }

  /** A log that continues `base` with one placement, then queries, then cancels. */
  lemma PlacementOpensLog(evs: seq<Event>, base: seq<Event>, e: Event, tail: seq<Event>)
    requires |base| < |evs| && evs[..|base| + 1] == base + [e]
    requires forall k :: |base| + 1 <= k < |evs| ==> evs[k].Queried?
    requires forall k :: 0 <= k < |tail| ==> tail[k].CancelSent?
    ensures var all := evs + tail;
      && all[..|base|] == base && all[|base|] == e
      && forall k :: |base| < k < |all| ==> !all[k].Placed?
  {
    var all := evs + tail;
    assert all[..|base|] == evs[..|base| + 1][..|base|];
    assert all[|base|] == evs[..|base| + 1][|base|];
  }

  /** How an attempt's log ends: on the FILLED_ALL reply when it filled, on the cancel of its
      order when the order got an id but no fill. */
  lemma AttemptEnd(b: Broker, code: OptionCode, qty: int, price: real)
    ensures var a := Attempt(b, code, qty, price);
      var evs := a.broker.events;
      && |b.events| < |evs|
      && (a.filled ==> a.orderId.Some? && LastIs(evs, Queried(a.orderId.value, Some(OrderRow(FilledAll, a.avgPrice)))))
      && (!a.filled ==> a.avgPrice == 0.0 && (a.orderId.Some? ==> LastIs(evs, CancelSent(a.orderId.value))))
  {
    var a := Attempt(b, code, qty, price);
    var placed := PlaceStep(b, code, qty, price);
    if placed.out.None? {
      assert a == AttemptResult(placed.broker, None, false, 0.0);
    } else {
      var id := placed.out.value;
      var p := Poll(placed.broker, id, RetryPollRounds);
      PollEnds(placed.broker, id, RetryPollRounds);
      if p.filled {
        assert a == AttemptResult(p.broker, Some(id), true, p.avgPrice);
      } else {
        assert a == AttemptResult(CancelStep(p.broker, id), Some(id), false, 0.0);
      }
    }
  }

  datatype RetryResult = RetryResult(broker: Broker, orderId: Option<OrderId>, fillPrice: real)

  /** `place_order_with_retry` from attempt index `attempt` on: each attempt prices the order
      (urgently from index 2) and runs the loop body; a fill returns the id and the average
      price; after the last attempt: (None, 0.0). */
  function Retry(b: Broker, code: OptionCode, qty: int, bid: real, ask: real, attempt: nat, maxAttempts: nat): RetryResult
    decreases maxAttempts - attempt
  {
    if attempt >= maxAttempts then RetryResult(b, None, 0.0)
    else
      var a := Attempt(b, code, qty, OrderPrice(bid, ask, attempt >= 2));
      if a.filled then RetryResult(a.broker, a.orderId, a.avgPrice)
      else Retry(a.broker, code, qty, bid, ask, attempt + 1, maxAttempts)
  }

  /** The number of placements among evs[start..stop]. */
  function PlacedBetween(evs: seq<Event>, start: int, stop: int): nat
    requires 0 <= start <= stop <= |evs|
    decreases stop - start
  {
    if stop == start then 0 else PlacedBetween(evs, start, stop - 1) + (if evs[stop - 1].Placed? then 1 else 0)
  }

  lemma {:induction false} PlacedBetweenSplit(evs: seq<Event>, start: int, mid: int, stop: int)
    requires 0 <= start <= mid <= stop <= |evs|
    ensures PlacedBetween(evs, start, stop) == PlacedBetween(evs, start, mid) + PlacedBetween(evs, mid, stop)
    decreases stop - mid
  {
    if mid < stop {
      PlacedBetweenSplit(evs, start, mid, stop - 1);
    }
  }

  lemma {:induction false} PlacedBetweenNone(evs: seq<Event>, start: int, stop: int)
    requires 0 <= start <= stop <= |evs|
    requires forall k :: start <= k < stop ==> !evs[k].Placed?
    ensures PlacedBetween(evs, start, stop) == 0
    decreases stop - start
  {
    if start < stop {
      PlacedBetweenNone(evs, start, stop - 1);
    }
  }

  /** A log that extends `prefix` agrees with it below its length. */
  lemma PrefixAgrees(evs: seq<Event>, prefix: seq<Event>, n: nat)
    requires |prefix| <= |evs| && evs[..|prefix|] == prefix && n <= |prefix|
    ensures evs[..n] == prefix[..n]
    ensures forall k :: 0 <= k < |prefix| ==> evs[k] == prefix[k]
  {
    forall k | 0 <= k < |prefix| ensures evs[k] == prefix[k] {
      assert evs[..|prefix|][k] == evs[k];
    }
  }

  /** The retry loop extends the log it started from and places at most one order per remaining
      attempt; a failure used every attempt. */
  lemma {:induction false} RetryPlacements(b: Broker, code: OptionCode, qty: int, bid: real, ask: real, attempt: nat, maxAttempts: nat)
    requires attempt <= maxAttempts
    ensures var r := Retry(b, code, qty, bid, ask, attempt, maxAttempts);
      var evs, origin := r.broker.events, |b.events|;
      && origin <= |evs| && evs[..origin] == b.events
      && PlacedBetween(evs, origin, |evs|) <= maxAttempts - attempt
      && (r.orderId.None? ==> PlacedBetween(evs, origin, |evs|) == maxAttempts - attempt)
    decreases maxAttempts - attempt
  {
    if attempt < maxAttempts {
      var price := OrderPrice(bid, ask, attempt >= 2);
      var a := Attempt(b, code, qty, price);
      AttemptLog(b, code, qty, price);
      var evs, origin, next := Retry(b, code, qty, bid, ask, attempt, maxAttempts).broker.events, |b.events|, |a.broker.events|;
      if !a.filled {
        RetryPlacements(a.broker, code, qty, bid, ask, attempt + 1, maxAttempts);
        PrefixAgrees(evs, a.broker.events, origin);
      }
      PlacedBetweenNone(evs, origin + 1, next);
      PlacedBetweenSplit(evs, origin, origin + 1, next);
      PlacedBetweenSplit(evs, origin, next, |evs|);
    }
  }

  /** Placements of evs[origin..] for `code` and `qty`, each priced by its index among them
      counted from `attempt`. */
  predicate PricedFrom(evs: seq<Event>, origin: nat, code: OptionCode, qty: int, bid: real, ask: real, attempt: nat)
    requires origin <= |evs|
  {
    forall i :: origin <= i < |evs| && evs[i].Placed? ==>
      && evs[i].code == code && evs[i].qty == qty
      && evs[i].price == OrderPrice(bid, ask, attempt + PlacedBetween(evs, origin, i) >= 2)
  }

  /** One more placement in front of a priced log, priced at index `attempt`, gives a log priced
      from `attempt`. */
  lemma PricedFromExtend(evs: seq<Event>, origin: nat, next: nat, code: OptionCode, qty: int, bid: real, ask: real, attempt: nat)
    requires origin < next <= |evs|
    requires evs[origin].Placed? && evs[origin].code == code && evs[origin].qty == qty
    requires evs[origin].price == OrderPrice(bid, ask, attempt >= 2)
    requires forall k :: origin < k < next ==> !evs[k].Placed?
    requires PricedFrom(evs, next, code, qty, bid, ask, attempt + 1)
    ensures PricedFrom(evs, origin, code, qty, bid, ask, attempt)
  {
    PlacedBetweenNone(evs, origin + 1, next);
    PlacedBetweenSplit(evs, origin, origin + 1, next);
    forall i | next <= i < |evs| && evs[i].Placed?
      ensures evs[i].price == OrderPrice(bid, ask, attempt + PlacedBetween(evs, origin, i) >= 2)
    {
      PlacedBetweenSplit(evs, origin, next, i);
    }
  }

  /** Every placement of the retry loop is for `code` and `qty`, priced by its attempt index:
      patiently for indices 0 and 1, urgently from index 2. */
  lemma {:induction false} RetryPricing(b: Broker, code: OptionCode, qty: int, bid: real, ask: real, attempt: nat, maxAttempts: nat)
    requires attempt <= maxAttempts
    ensures var evs := Retry(b, code, qty, bid, ask, attempt, maxAttempts).broker.events;
      |b.events| <= |evs| && PricedFrom(evs, |b.events|, code, qty, bid, ask, attempt)
    decreases maxAttempts - attempt
  {
    RetryPlacements(b, code, qty, bid, ask, attempt, maxAttempts);
    if attempt < maxAttempts {
      var price := OrderPrice(bid, ask, attempt >= 2);
      var a := Attempt(b, code, qty, price);
      AttemptLog(b, code, qty, price);
      var evs, origin, next := Retry(b, code, qty, bid, ask, attempt, maxAttempts).broker.events, |b.events|, |a.broker.events|;
      if !a.filled {
        RetryPricing(a.broker, code, qty, bid, ask, attempt + 1, maxAttempts);
        RetryPlacements(a.broker, code, qty, bid, ask, attempt + 1, maxAttempts);
        PrefixAgrees(evs, a.broker.events, origin);
      } else {
        assert PricedFrom(evs, next, code, qty, bid, ask, attempt + 1);
      }
      PricedFromExtend(evs, origin, next, code, qty, bid, ask, attempt);
    }
  }

  /** In evs[origin..], an order the broker accepted is cancelled before the next placement. */
  predicate CancelledBeforeNext(evs: seq<Event>, origin: nat)
  {
    forall i, j :: origin <= i < j < |evs| && evs[i].Placed? && evs[i].reply.Some? && evs[j].Placed? ==>
      exists m :: i < m < j && evs[m] == CancelSent(evs[i].reply.value)
  }

  /** In evs[origin..], every order the broker accepted is later cancelled. */
  predicate AllCancelled(evs: seq<Event>, origin: nat)
  {
    forall i :: origin <= i < |evs| && evs[i].Placed? && evs[i].reply.Some? ==>
      exists m :: i < m < |evs| && evs[m] == CancelSent(evs[i].reply.value)
  }

  /** The shape of one attempt's stretch evs[origin..next] of a log: a placement first, no
      placement after it, and, when the broker accepted the order and the log goes on, the
      cancel of that order last. */
  predicate AttemptStretch(evs: seq<Event>, origin: nat, next: nat)
    requires origin < next <= |evs|
  {
    && evs[origin].Placed?
    && (forall k :: origin < k < next ==> !evs[k].Placed?)
    && (evs[origin].reply.Some? && next < |evs| ==> evs[next - 1] == CancelSent(evs[origin].reply.value))
  }

  /** An attempt's stretch in front of a log that cancels before each next placement gives a
      log that does so too. */
  lemma CancelledBeforeNextExtend(evs: seq<Event>, origin: nat, next: nat)
    requires origin < next <= |evs| && AttemptStretch(evs, origin, next)
    requires CancelledBeforeNext(evs, next)
    ensures CancelledBeforeNext(evs, origin)
  {
    forall i, j | origin <= i < j < |evs| && evs[i].Placed? && evs[i].reply.Some? && evs[j].Placed?
      ensures exists m :: i < m < j && evs[m] == CancelSent(evs[i].reply.value)
    {
      if i < next {
        assert i == origin && next <= j;
        assert evs[next - 1] == CancelSent(evs[i].reply.value);
      }
    }
  }

  /** Likewise for a log in which every accepted order is cancelled, when the stretch ends in
      the cancel of its order. */
  lemma AllCancelledExtend(evs: seq<Event>, origin: nat, next: nat)
    requires origin < next <= |evs| && AttemptStretch(evs, origin, next)
    requires evs[origin].reply.Some? ==> evs[next - 1] == CancelSent(evs[origin].reply.value)
    requires AllCancelled(evs, next)
    ensures AllCancelled(evs, origin)
  {
    forall i | origin <= i < |evs| && evs[i].Placed? && evs[i].reply.Some?
      ensures exists m :: i < m < |evs| && evs[m] == CancelSent(evs[i].reply.value)
    {
      if i < next {
        assert i == origin && evs[next - 1] == CancelSent(evs[i].reply.value);
      }
    }
  }

  /** One step of the retry loop that did not fill: the loop goes on from the attempt's broker. */
  lemma RetryContinues(b: Broker, code: OptionCode, qty: int, bid: real, ask: real, attempt: nat, maxAttempts: nat)
    requires attempt < maxAttempts
    ensures var a := Attempt(b, code, qty, OrderPrice(bid, ask, attempt >= 2));
      && (a.filled ==> Retry(b, code, qty, bid, ask, attempt, maxAttempts) == RetryResult(a.broker, a.orderId, a.avgPrice))
      && (!a.filled ==> Retry(b, code, qty, bid, ask, attempt, maxAttempts) == Retry(a.broker, code, qty, bid, ask, attempt + 1, maxAttempts))
  {
  }

  /** Every order the retry loop placed and the broker accepted is cancelled before the next
      placement. */
  lemma {:induction false} RetryCancels(b: Broker, code: OptionCode, qty: int, bid: real, ask: real, attempt: nat, maxAttempts: nat)
    ensures CancelledBeforeNext(Retry(b, code, qty, bid, ask, attempt, maxAttempts).broker.events, |b.events|)
    decreases maxAttempts - attempt
  {
    if attempt < maxAttempts {
      var price := OrderPrice(bid, ask, attempt >= 2);
      var a := Attempt(b, code, qty, price);
      AttemptLog(b, code, qty, price);
      AttemptEnd(b, code, qty, price);
      RetryContinues(b, code, qty, bid, ask, attempt, maxAttempts);
      var evs, origin, next := Retry(b, code, qty, bid, ask, attempt, maxAttempts).broker.events, |b.events|, |a.broker.events|;
      if !a.filled {
        RetryCancels(a.broker, code, qty, bid, ask, attempt + 1, maxAttempts);
        RetryPlacements(a.broker, code, qty, bid, ask, attempt + 1, maxAttempts);
        PrefixAgrees(evs, a.broker.events, origin);
      }
      CancelledBeforeNextExtend(evs, origin, next);
    }
  }

  /** When the retry loop gives up, every order the broker accepted has been cancelled. */
  lemma {:induction false} RetryFailureCancelsAll(b: Broker, code: OptionCode, qty: int, bid: real, ask: real, attempt: nat, maxAttempts: nat)
    requires Retry(b, code, qty, bid, ask, attempt, maxAttempts).orderId.None?
    ensures AllCancelled(Retry(b, code, qty, bid, ask, attempt, maxAttempts).broker.events, |b.events|)
    decreases maxAttempts - attempt
  {
    if attempt < maxAttempts {
      var price := OrderPrice(bid, ask, attempt >= 2);
      var a := Attempt(b, code, qty, price);
      AttemptLog(b, code, qty, price);
      AttemptEnd(b, code, qty, price);
      RetryContinues(b, code, qty, bid, ask, attempt, maxAttempts);
      var evs, origin, next := Retry(b, code, qty, bid, ask, attempt, maxAttempts).broker.events, |b.events|, |a.broker.events|;
      RetryFailureCancelsAll(a.broker, code, qty, bid, ask, attempt + 1, maxAttempts);
      RetryPlacements(a.broker, code, qty, bid, ask, attempt + 1, maxAttempts);
      PrefixAgrees(evs, a.broker.events, origin);
      AllCancelledExtend(evs, origin, next);
    }
  }

  /** `place_order_with_retry` reports success only on a FILLED_ALL reply: the loop's last request
      is that reply for the returned id, carrying the returned price; a failure returns 0.0. */
  lemma {:induction false} RetrySuccess(b: Broker, code: OptionCode, qty: int, bid: real, ask: real, attempt: nat, maxAttempts: nat)
    ensures var r := Retry(b, code, qty, bid, ask, attempt, maxAttempts);
      var evs := r.broker.events;
      && (r.orderId.Some? ==> |b.events| < |evs| && LastIs(evs, Queried(r.orderId.value, Some(OrderRow(FilledAll, r.fillPrice)))))
      && (r.orderId.None? ==> r.fillPrice == 0.0)
    decreases maxAttempts - attempt
  {
    if attempt < maxAttempts {
      var price := OrderPrice(bid, ask, attempt >= 2);
      var a := Attempt(b, code, qty, price);
      AttemptEnd(b, code, qty, price);
      RetryContinues(b, code, qty, bid, ask, attempt, maxAttempts);
      if !a.filled {
        RetrySuccess(a.broker, code, qty, bid, ask, attempt + 1, maxAttempts);
      }
    }
  }

  /** With a sound quote (0 < ask, bid <= ask) the prices of successive placements never fall:
      the first two attempts use the patient price and the third the urgent one. */
  lemma RetryPricesNonDecreasing(b: Broker, code: OptionCode, qty: int, bid: real, ask: real)
    requires 0.0 < ask && bid <= ask
    ensures var evs, origin := Retry(b, code, qty, bid, ask, 0, MaxAttempts).broker.events, |b.events|;
      forall i, j :: origin <= i < j < |evs| && evs[i].Placed? && evs[j].Placed? ==> evs[i].price <= evs[j].price
  {
    var evs, origin := Retry(b, code, qty, bid, ask, 0, MaxAttempts).broker.events, |b.events|;
    RetryPricing(b, code, qty, bid, ask, 0, MaxAttempts);
    OrderPriceUrgencyMonotone(bid, ask);
    forall i, j | origin <= i < j < |evs| && evs[i].Placed? && evs[j].Placed?
      ensures evs[i].price <= evs[j].price
    {
      PlacedBetweenSplit(evs, origin, i, j);
    }
  }

  // ---------------------------------------------------------------- the two legs of execute_trade

  /** Python truthiness of an order id: present and not the empty string. */
  predicate Truthy(id: Option<OrderId>)
  {
    id.Some? && id.value != ""
  }

  datatype TradeStatus = Filled | Partial

  /** The `TradeResult` record; of `notes` only the liquidity score it reports is kept. */
  datatype TradeResult = TradeResult(
    timestamp: Moment, spxPrice: real, strike: int, callCode: OptionCode, putCode: OptionCode,
    callOrderId: OrderId, putOrderId: OrderId, callFillPrice: real, putFillPrice: real,
    callFillQty: int, putFillQty: int, contracts: int, totalCost: real, status: TradeStatus,
    liquidityScore: real)

  /** How the order phase of `execute_trade` ends: no call id (None returned, nothing to undo);
      no put id (a cancel sent for the call, None returned); the closing price fetch raised after
      both legs were placed; or a trade record. */
  datatype LegOutcome =
    | CallFailed
    | PutFailed(callId: OrderId)
    | PriceRaised(callId: OrderId, putId: OrderId)
    | Recorded(trade: TradeResult)

  datatype LegRun = LegRun(broker: Broker, outcome: LegOutcome)

  /** `(call_fill_price + put_fill_price) * 100 * contracts`: the straddle premium per share,
      times the 100-share multiplier, times the number of contracts. */
  function TotalCost(callFillPrice: real, putFillPrice: real, contracts: int): real
  {
    (callFillPrice + putFillPrice) * 100.0 * contracts as real
  }

  /** The order phase of `execute_trade` for straddle `s` and `contracts`: the call through the
      retry loop and, once it returned an id, the rest. `finalPrice` is what the second
      `get_spx_price()` call yields and `start` the moment read on entry. */
  function Legs(b: Broker, s: StraddleQuote, contracts: int, finalPrice: Result<real>, start: Moment): LegRun
  {
    var call := Retry(b, s.callCode, contracts, s.callBid, s.callAsk, 0, MaxAttempts);
    if !Truthy(call.orderId) then LegRun(call.broker, CallFailed)
    else PutLeg(call, s, contracts, finalPrice, start)
  }

  /** The put through the retry loop; without an id, a cancel for the call and no record. */
  function PutLeg(call: RetryResult, s: StraddleQuote, contracts: int, finalPrice: Result<real>, start: Moment): LegRun
    requires Truthy(call.orderId)
  {
    var put := Retry(call.broker, s.putCode, contracts, s.putBid, s.putAsk, 0, MaxAttempts);
    if !Truthy(put.orderId) then LegRun(CancelStep(put.broker, call.orderId.value), PutFailed(call.orderId.value))
    else Verification(call, put, s, contracts, finalPrice, start)
  }

  /** The two 30-round verification polls, then the record: fill prices from the retry loop,
      fill quantities and status from the verification polls. */
  function Verification(call: RetryResult, put: RetryResult, s: StraddleQuote, contracts: int, finalPrice: Result<real>, start: Moment): LegRun
    requires Truthy(call.orderId) && Truthy(put.orderId)
  {
    var callId, putId := call.orderId.value, put.orderId.value;
    var callCheck := Poll(put.broker, callId, VerifyPollRounds);
    var putCheck := Poll(callCheck.broker, putId, VerifyPollRounds);
    if finalPrice.Err? then LegRun(putCheck.broker, PriceRaised(callId, putId))
    else
      var trade := TradeResult(
        start, finalPrice.value, s.strike, s.callCode, s.putCode, callId, putId,
        call.fillPrice, put.fillPrice,
        if callCheck.filled then contracts else 0,
        if putCheck.filled then contracts else 0,
        contracts,
        TotalCost(call.fillPrice, put.fillPrice, contracts),
        if callCheck.filled && putCheck.filled then Filled else Partial,
        s.liquidityScore);
      LegRun(putCheck.broker, Recorded(trade))
  }

  /** The verification phase only queries: it extends the log and places nothing. */
  lemma VerificationOnlyQueries(call: RetryResult, put: RetryResult, s: StraddleQuote, contracts: int, finalPrice: Result<real>, start: Moment)
    requires Truthy(call.orderId) && Truthy(put.orderId)
    ensures var evs, origin := Verification(call, put, s, contracts, finalPrice, start).broker.events, |put.broker.events|;
      && origin <= |evs| && evs[..origin] == put.broker.events
      && forall k :: origin <= k < |evs| ==> evs[k].Queried?
  {
    var callCheck := Poll(put.broker, call.orderId.value, VerifyPollRounds);
    var evs := Verification(call, put, s, contracts, finalPrice, start).broker.events;
    PollQueries(put.broker, call.orderId.value, VerifyPollRounds);
    PollQueries(callCheck.broker, put.orderId.value, VerifyPollRounds);
    PrefixAgrees(evs, callCheck.broker.events, |put.broker.events|);
  }

  /** After the call leg: the log extends the call's log, every placement is for the put code and
      `contracts`, and the put phase places at most three orders. */
  lemma PutLegPlacements(call: RetryResult, s: StraddleQuote, contracts: int, finalPrice: Result<real>, start: Moment)
    requires Truthy(call.orderId)
    ensures var evs, origin := PutLeg(call, s, contracts, finalPrice, start).broker.events, |call.broker.events|;
      && origin <= |evs| && evs[..origin] == call.broker.events
      && PlacedBetween(evs, origin, |evs|) <= MaxAttempts
      && forall k :: origin <= k < |evs| && evs[k].Placed? ==> evs[k].code == s.putCode && evs[k].qty == contracts
  {
    var put := Retry(call.broker, s.putCode, contracts, s.putBid, s.putAsk, 0, MaxAttempts);
    var evs, origin, mid := PutLeg(call, s, contracts, finalPrice, start).broker.events, |call.broker.events|, |put.broker.events|;
    RetryPlacements(call.broker, s.putCode, contracts, s.putBid, s.putAsk, 0, MaxAttempts);
    RetryPricing(call.broker, s.putCode, contracts, s.putBid, s.putAsk, 0, MaxAttempts);
    if Truthy(put.orderId) {
      VerificationOnlyQueries(call, put, s, contracts, finalPrice, start);
    } else {
      assert evs == put.broker.events + [CancelSent(call.orderId.value)];
      assert evs[..mid] == put.broker.events;
    }
    PrefixAgrees(evs, put.broker.events, origin);
    PlacedBetweenNone(evs, mid, |evs|);
    PlacedBetweenSplit(evs, origin, mid, |evs|);
    // PlacedBetween on the put's log and on the longer log agree below `mid`
    PlacedBetweenPrefix(evs, put.broker.events, origin, mid);
  }

  lemma {:induction false} PlacedBetweenPrefix(evs: seq<Event>, prefix: seq<Event>, start: int, stop: int)
    requires 0 <= start <= stop <= |prefix| <= |evs| && evs[..|prefix|] == prefix
    ensures PlacedBetween(evs, start, stop) == PlacedBetween(prefix, start, stop)
    decreases stop - start
  {
    if start < stop {
      PlacedBetweenPrefix(evs, prefix, start, stop - 1);
      PrefixAgrees(evs, prefix, 0);
    }
  }

  /** Whatever the outcome, the order phase extends the log, places at most six orders, each for
      `contracts` and one of the straddle's two codes, and places no call after a put. */
  lemma LegsOrder(b: Broker, s: StraddleQuote, contracts: int, finalPrice: Result<real>, start: Moment)
    requires s.callCode != s.putCode
    ensures var evs, origin := Legs(b, s, contracts, finalPrice, start).broker.events, |b.events|;
      && origin <= |evs| && evs[..origin] == b.events
      && PlacedBetween(evs, origin, |evs|) <= 2 * MaxAttempts
      && (forall i :: origin <= i < |evs| && evs[i].Placed? ==>
            evs[i].qty == contracts && (evs[i].code == s.callCode || evs[i].code == s.putCode))
      && (forall i, j :: origin <= i < j < |evs| && evs[i].Placed? && evs[j].Placed? && evs[i].code == s.putCode ==>
            evs[j].code == s.putCode)
  {
    var call := Retry(b, s.callCode, contracts, s.callBid, s.callAsk, 0, MaxAttempts);
    var evs, origin, mid := Legs(b, s, contracts, finalPrice, start).broker.events, |b.events|, |call.broker.events|;
    RetryPlacements(b, s.callCode, contracts, s.callBid, s.callAsk, 0, MaxAttempts);
    RetryPricing(b, s.callCode, contracts, s.callBid, s.callAsk, 0, MaxAttempts);
    if Truthy(call.orderId) {
      PutLegPlacements(call, s, contracts, finalPrice, start);
      PrefixAgrees(evs, call.broker.events, origin);
      PlacedBetweenSplit(evs, origin, mid, |evs|);
      PlacedBetweenPrefix(evs, call.broker.events, origin, mid);
      assert forall i :: origin <= i < mid && evs[i].Placed? ==> evs[i].code == s.callCode;
    }
  }

  /** If the call never got an order id, every placement was for the call: the put is never placed. */
  lemma CallFailureStopsBeforePut(b: Broker, s: StraddleQuote, contracts: int, finalPrice: Result<real>, start: Moment)
    requires Legs(b, s, contracts, finalPrice, start).outcome == CallFailed
    ensures var evs, origin := Legs(b, s, contracts, finalPrice, start).broker.events, |b.events|;
      forall i :: origin <= i < |evs| && evs[i].Placed? ==> evs[i].code == s.callCode
  {
    RetryPricing(b, s.callCode, contracts, s.callBid, s.callAsk, 0, MaxAttempts);
  }

  /** The put phase starts only after the call was filled: the call leg's last request is the
      FILLED_ALL reply for the id the rest of the phase works with. */
  lemma PutOnlyAfterCallFilled(b: Broker, s: StraddleQuote, contracts: int, finalPrice: Result<real>, start: Moment)
    requires !Legs(b, s, contracts, finalPrice, start).outcome.CallFailed?
    ensures var call := Retry(b, s.callCode, contracts, s.callBid, s.callAsk, 0, MaxAttempts);
      var out := Legs(b, s, contracts, finalPrice, start).outcome;
      && Truthy(call.orderId)
      && |b.events| < |call.broker.events|
      && LastIs(call.broker.events, Queried(call.orderId.value, Some(OrderRow(FilledAll, call.fillPrice))))
      && (out.PutFailed? ==> out.callId == call.orderId.value)
      && (out.PriceRaised? ==> out.callId == call.orderId.value)
      && (out.Recorded? ==> out.trade.callOrderId == call.orderId.value)
  {
    var call := Retry(b, s.callCode, contracts, s.callBid, s.callAsk, 0, MaxAttempts);
    LegsAfterCall(b, s, contracts, finalPrice, start);
    RetrySuccess(b, s.callCode, contracts, s.callBid, s.callAsk, 0, MaxAttempts);
    PutLegKeepsCallId(call, s, contracts, finalPrice, start);
  }

  /** The call leg either fails the phase or hands its result to the put leg. */
  lemma LegsAfterCall(b: Broker, s: StraddleQuote, contracts: int, finalPrice: Result<real>, start: Moment)
    ensures var call := Retry(b, s.callCode, contracts, s.callBid, s.callAsk, 0, MaxAttempts);
      && (!Truthy(call.orderId) ==> Legs(b, s, contracts, finalPrice, start).outcome == CallFailed)
      && (Truthy(call.orderId) ==> Legs(b, s, contracts, finalPrice, start) == PutLeg(call, s, contracts, finalPrice, start))
  {
  }

  lemma PutLegKeepsCallId(call: RetryResult, s: StraddleQuote, contracts: int, finalPrice: Result<real>, start: Moment)
    requires Truthy(call.orderId)
    ensures var out := PutLeg(call, s, contracts, finalPrice, start).outcome;
      && !out.CallFailed?
      && (out.PutFailed? ==> out.callId == call.orderId.value)
      && (out.PriceRaised? ==> out.callId == call.orderId.value)
      && (out.Recorded? ==> out.trade.callOrderId == call.orderId.value)
  {
  }

  /** The put-failure unwind is a single cancel request for the call, sent last, and no record. */
  lemma PutFailureUnwindsCall(b: Broker, s: StraddleQuote, contracts: int, finalPrice: Result<real>, start: Moment)
    requires Legs(b, s, contracts, finalPrice, start).outcome.PutFailed?
    ensures var run := Legs(b, s, contracts, finalPrice, start);
      var call := Retry(b, s.callCode, contracts, s.callBid, s.callAsk, 0, MaxAttempts);
      var put := Retry(call.broker, s.putCode, contracts, s.putBid, s.putAsk, 0, MaxAttempts);
      && Truthy(call.orderId) && !Truthy(put.orderId)
      && run.broker.events == put.broker.events + [CancelSent(run.outcome.callId)]
      && run.outcome.callId == call.orderId.value
  {
  }

  /** The record built by the verification phase, field by field. */
  lemma VerificationRecord(call: RetryResult, put: RetryResult, s: StraddleQuote, contracts: int, finalPrice: Result<real>, start: Moment)
    requires Truthy(call.orderId) && Truthy(put.orderId)
    requires Verification(call, put, s, contracts, finalPrice, start).outcome.Recorded?
    ensures var t := Verification(call, put, s, contracts, finalPrice, start).outcome.trade;
      var callCheck := Poll(put.broker, t.callOrderId, VerifyPollRounds);
      var putCheck := Poll(callCheck.broker, t.putOrderId, VerifyPollRounds);
      && finalPrice == Ok(t.spxPrice) && t.timestamp == start && t.strike == s.strike
      && Some(t.callOrderId) == call.orderId && Some(t.putOrderId) == put.orderId
      && t.callFillPrice == call.fillPrice && t.putFillPrice == put.fillPrice
      && t.totalCost == TotalCost(t.callFillPrice, t.putFillPrice, contracts)
      && (t.status == Filled <==> callCheck.filled && putCheck.filled)
      && t.callFillQty == (if callCheck.filled then contracts else 0)
      && t.putFillQty == (if putCheck.filled then contracts else 0)
      && t.contracts == contracts
  {
  }

  /** The order phase ends in exactly one of three ways, decided by the two retry loops' ids. */
  lemma LegsStages(b: Broker, s: StraddleQuote, contracts: int, finalPrice: Result<real>, start: Moment)
    ensures var call := Retry(b, s.callCode, contracts, s.callBid, s.callAsk, 0, MaxAttempts);
      var put := Retry(call.broker, s.putCode, contracts, s.putBid, s.putAsk, 0, MaxAttempts);
      var run := Legs(b, s, contracts, finalPrice, start);
      && (!Truthy(call.orderId) ==> run == LegRun(call.broker, CallFailed))
      && (Truthy(call.orderId) && !Truthy(put.orderId) ==>
            run == LegRun(CancelStep(put.broker, call.orderId.value), PutFailed(call.orderId.value)))
      && (Truthy(call.orderId) && Truthy(put.orderId) ==> run == Verification(call, put, s, contracts, finalPrice, start))
  {
  }

  /** A trade record costs the retry fill prices (not the re-verified ones) times 100 per contract,
      reports `contracts` for each leg the verification poll saw filled and 0 otherwise, and is
      `Filled` exactly when both verification polls saw a fill. */
  lemma RecordedTrade(b: Broker, s: StraddleQuote, contracts: int, finalPrice: Result<real>, start: Moment)
    requires Legs(b, s, contracts, finalPrice, start).outcome.Recorded?
    ensures var t := Legs(b, s, contracts, finalPrice, start).outcome.trade;
      var call := Retry(b, s.callCode, contracts, s.callBid, s.callAsk, 0, MaxAttempts);
      var put := Retry(call.broker, s.putCode, contracts, s.putBid, s.putAsk, 0, MaxAttempts);
      var callCheck := Poll(put.broker, t.callOrderId, VerifyPollRounds);
      var putCheck := Poll(callCheck.broker, t.putOrderId, VerifyPollRounds);
      && finalPrice == Ok(t.spxPrice) && t.timestamp == start && t.strike == s.strike
      && Some(t.callOrderId) == call.orderId && Some(t.putOrderId) == put.orderId
      && t.callFillPrice == call.fillPrice && t.putFillPrice == put.fillPrice
      && t.totalCost == TotalCost(t.callFillPrice, t.putFillPrice, contracts)
      && (t.status == Filled <==> callCheck.filled && putCheck.filled)
      && t.callFillQty == (if callCheck.filled then contracts else 0)
      && t.putFillQty == (if putCheck.filled then contracts else 0)
      && t.contracts == contracts
  {
    var call := Retry(b, s.callCode, contracts, s.callBid, s.callAsk, 0, MaxAttempts);
    var put := Retry(call.broker, s.putCode, contracts, s.putBid, s.putAsk, 0, MaxAttempts);
    LegsStages(b, s, contracts, finalPrice, start);
    if Truthy(call.orderId) && Truthy(put.orderId) {
      VerificationRecord(call, put, s, contracts, finalPrice, start);
    }
  }

  /** A concrete run: the call fills at 10.15 on its first attempt, the broker rejects all three
      put placements, and the bot answers with one cancel request for the filled call, which
      leaves the call position open. */
  lemma RejectedPutScenario()
    ensures var s := StraddleQuote(6000, "251017", CallCode("251017", 6000), PutCode("251017", 6000),
                                   10.0, 10.2, 500, 9.8, 10.0, 400, 0.0, 20.1, 0.0);
      var b := Broker([Some("C1"), None, None, None], [Some(OrderRow(FilledAll, 10.15))], []);
      var run := Legs(b, s, 1, Ok(6000.0), Moment(739254, MarketOpen));
      && run.outcome == PutFailed("C1")
      && run.broker.events == [
           Placed(s.callCode, 1, OrderPrice(10.0, 10.2, false), Some("C1")),
           Queried("C1", Some(OrderRow(FilledAll, 10.15))),
           Placed(s.putCode, 1, OrderPrice(9.8, 10.0, false), None),
           Placed(s.putCode, 1, OrderPrice(9.8, 10.0, false), None),
           Placed(s.putCode, 1, OrderPrice(9.8, 10.0, true), None),
           CancelSent("C1")]
  {
    var s := StraddleQuote(6000, "251017", CallCode("251017", 6000), PutCode("251017", 6000),
                           10.0, 10.2, 500, 9.8, 10.0, 400, 0.0, 20.1, 0.0);
    var b := Broker([Some("C1"), None, None, None], [Some(OrderRow(FilledAll, 10.15))], []);
    var row := Some(OrderRow(FilledAll, 10.15));
    var callPrice := OrderPrice(10.0, 10.2, false);
    var a := Attempt(b, s.callCode, 1, callPrice);
    var b1 := Broker([None, None, None], [], [Placed(s.callCode, 1, callPrice, Some("C1")), Queried("C1", row)]);
    assert a == AttemptResult(b1, Some("C1"), true, 10.15);
    var call := Retry(b, s.callCode, 1, 10.0, 10.2, 0, MaxAttempts);
    assert call == RetryResult(b1, Some("C1"), 10.15);
    var patient, urgent := OrderPrice(9.8, 10.0, false), OrderPrice(9.8, 10.0, true);
    var e2 := b1.events + [Placed(s.putCode, 1, patient, None)];
    var e3 := e2 + [Placed(s.putCode, 1, patient, None)];
    var e4 := e3 + [Placed(s.putCode, 1, urgent, None)];
    assert Attempt(b1, s.putCode, 1, patient) == AttemptResult(Broker([None, None], [], e2), None, false, 0.0);
    assert Attempt(Broker([None, None], [], e2), s.putCode, 1, patient) == AttemptResult(Broker([None], [], e3), None, false, 0.0);
    assert Attempt(Broker([None], [], e3), s.putCode, 1, urgent) == AttemptResult(Broker([], [], e4), None, false, 0.0);
    var put := Retry(b1, s.putCode, 1, 9.8, 10.0, 0, MaxAttempts);
    assert put == RetryResult(Broker([], [], e4), None, 0.0);
    LegsStages(b, s, 1, Ok(6000.0), Moment(739254, MarketOpen));
  }
}
