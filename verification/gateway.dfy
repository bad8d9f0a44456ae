/** The broker's trading context as the bot uses it: `place_order`, `order_list_query` and
    `modify_order(CANCEL, ...)`. The replies come from scripts fixed in advance, and every
    request the bot sends is appended to an event log, so that properties of the bot can be
    stated about the orders it placed and cancelled. */
module Gateway {
  import opened Common
  import opened OptionCodes

  type OrderId = string

  /** The order states `wait_for_fill` distinguishes; `Working` stands for every other state
      (submitted, partly cancelled, submit failed, ...), on which it keeps polling. */
  datatype OrderStatus = FilledAll | FilledPart | CancelledAll | Failed | Disabled | Deleted | Working

  /** The states on which `wait_for_fill` stops at once with no fill. */
  predicate IsTerminal(s: OrderStatus)
  {
    s == CancelledAll || s == Failed || s == Disabled || s == Deleted
  }

  /** The first row of a successful `order_list_query`: its `order_status` and `dealt_avg_price`. */
  datatype OrderRow = OrderRow(status: OrderStatus, dealtAvgPrice: real)

  /** What the bot sent to the broker, with the reply it got. A `Placed` reply is the new order
      id, or None when the call failed or returned no row; a `Queried` reply is the order's row,
      or None likewise. The reply of a cancel is never looked at. */
  datatype Event =
    | Placed(code: OptionCode, qty: int, price: real, reply: Option<OrderId>)
    | Queried(id: OrderId, row: Option<OrderRow>)
    | CancelSent(id: OrderId)

  /** The broker as a value: the replies still to come and the requests so far. */
  datatype Broker = Broker(placeReplies: seq<Option<OrderId>>, queryReplies: seq<Option<OrderRow>>, events: seq<Event>)

  datatype Step<T> = Step(broker: Broker, out: T)

  /** `place_order`: consumes one reply (None once the script is used up) and logs the request. */
  function PlaceStep(b: Broker, code: OptionCode, qty: int, price: real): (s: Step<Option<OrderId>>)
    ensures s.out == Head(b.placeReplies, None)
    ensures s.broker.events == b.events + [Placed(code, qty, price, s.out)]
    ensures s.broker.placeReplies == Tail(b.placeReplies) && s.broker.queryReplies == b.queryReplies
  {
    var reply := Head(b.placeReplies, None);
    Step(b.(placeReplies := Tail(b.placeReplies), events := b.events + [Placed(code, qty, price, reply)]), reply)
  }

  /** `order_list_query` for one order id. */
  function QueryStep(b: Broker, id: OrderId): (s: Step<Option<OrderRow>>)
    ensures s.out == Head(b.queryReplies, None)
    ensures s.broker.events == b.events + [Queried(id, s.out)]
    ensures s.broker.queryReplies == Tail(b.queryReplies) && s.broker.placeReplies == b.placeReplies
  {
    var reply := Head(b.queryReplies, None);
    Step(b.(queryReplies := Tail(b.queryReplies), events := b.events + [Queried(id, reply)]), reply)
  }

  /** `cancel_order`: sends the cancel and ignores the outcome. */
  function CancelStep(b: Broker, id: OrderId): (b': Broker)
    ensures b'.events == b.events + [CancelSent(id)]
    ensures b'.placeReplies == b.placeReplies && b'.queryReplies == b.queryReplies
  {
    b.(events := b.events + [CancelSent(id)])
  }

  /** The trading context object the bot holds (`trd_ctx`). */
  class OrderGateway {
    var placeReplies: seq<Option<OrderId>>
    var queryReplies: seq<Option<OrderRow>>
    var events: seq<Event>

    function Snapshot(): Broker
      reads this
    {
      Broker(placeReplies, queryReplies, events)
    }

    constructor(placeReplies: seq<Option<OrderId>>, queryReplies: seq<Option<OrderRow>>)
      ensures Snapshot() == Broker(placeReplies, queryReplies, [])
    {
      this.placeReplies := placeReplies;
      this.queryReplies := queryReplies;
      this.events := [];
    }

    method PlaceOrder(code: OptionCode, qty: int, price: real) returns (reply: Option<OrderId>)
      modifies this
      ensures Step(Snapshot(), reply) == PlaceStep(old(Snapshot()), code, qty, price)
    {
      reply := Head(placeReplies, None);
      placeReplies := Tail(placeReplies);
      events := events + [Placed(code, qty, price, reply)];
    }

    method QueryOrder(id: OrderId) returns (row: Option<OrderRow>)
      modifies this
      ensures Step(Snapshot(), row) == QueryStep(old(Snapshot()), id)
    {
      row := Head(queryReplies, None);
      queryReplies := Tail(queryReplies);
      events := events + [Queried(id, row)];
    }

    method CancelOrder(id: OrderId)
      modifies this
      ensures Snapshot() == CancelStep(old(Snapshot()), id)
    {
      events := events + [CancelSent(id)];
    }
  }
}
