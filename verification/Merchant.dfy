/** The merchant's own database, src/examples/merchant.ts. */
module MerchantModel {
  import opened Domain
  import opened Results
  import opened Database

  datatype OrderStatus = AwaitingPayment | Fulfilled | NeedsReview | OrderExpired

  datatype Order = Order(
    amount: nat, expiresAt: nat, intentId: Option<IntentId>, status: OrderStatus, fulfillments: nat)

  /** `byIntent` is the UNIQUE index on orders(intent_id). A receipt keeps the hash of the payload,
      here the payload itself. */
  datatype Merchant = Merchant(
    orders: map<OrderId, Order>, byIntent: map<IntentId, OrderId>, receipts: map<EventId, Event>)

  const NO_ORDERS := Merchant(map[], map[], map[])
  const PRICE: nat := 1_000_000
  const RESERVATION_SECONDS: nat := 7200

  datatype Answer = Accepted | Duplicate
  datatype Refusal = PayloadConflict | UnknownOrder | InconsistentConfirmation

  /** INSERT OR IGNORE: the price and the expiry of an order are fixed by its first reservation. */
  function Reserve(m: Merchant, o: OrderId, now: nat): Merchant {
    if o in m.orders then m
    else m.(orders := m.orders[o := Order(PRICE, now + RESERVATION_SECONDS, None, AwaitingPayment, 0)])
  }

  function Link(m: Merchant, o: OrderId, i: IntentId): Result<Merchant, Failure> {
    if o !in m.orders then Ok(m)
    else if i in m.byIntent && m.byIntent[i] != o then Thrown(UniqueViolation)
    else
      var linked := m.orders[o].intentId;
      var freed := if linked.Some? then m.byIntent - {linked.value} else m.byIntent;
      Ok(m.(orders := m.orders[o := m.orders[o].(intentId := Some(i))], byIntent := freed[i := o]))
  }

  /** What an event does to its order. */
  function Applied(order: Order, e: Event): Order {
    match e.kind
    case PaymentConfirmed =>
      if order.fulfillments != 0 then order
      else if e.status == PAID then order.(status := Fulfilled, fulfillments := 1)
      else order.(status := NeedsReview)
    case PaymentReverted => order.(status := NeedsReview)
    case PaymentExpired => if order.status == AwaitingPayment then order.(status := OrderExpired) else order
    case _ => order
  }

  predicate Consistent(order: Order, e: Event) {
    e.kind == PaymentConfirmed ==> e.status in {PAID, PAID_LATE} && e.received >= order.amount
  }

  function OrderFor(m: Merchant, i: IntentId): Option<OrderId> {
    if i in m.byIntent && m.byIntent[i] in m.orders then Some(m.byIntent[i]) else None
  }

  /** `accept`: the receipt and the change to the order commit together or not at all. */
  function Accept(m: Merchant, e: Event): Result<(Merchant, Answer), Refusal> {
    if e.id in m.receipts then
      if m.receipts[e.id] != e then Thrown(PayloadConflict) else Ok((m, Duplicate))
    else
      var o := OrderFor(m, e.intentId);
      if o.None? || m.orders[o.value].amount != e.expected then Thrown(UnknownOrder)
      else if !Consistent(m.orders[o.value], e) then Thrown(InconsistentConfirmation)
      else
        Ok((m.(receipts := m.receipts[e.id := e],
               orders := m.orders[o.value := Applied(m.orders[o.value], e)]), Accepted))
  }

  class MerchantStore {
    var orders: map<OrderId, Order>
    var byIntent: map<IntentId, OrderId>
    var receipts: map<EventId, Event>

    ghost function State(): Merchant
      reads this
    {
      Merchant(orders, byIntent, receipts)
    }

    constructor ()
      ensures State() == NO_ORDERS
    {
      orders, byIntent, receipts := map[], map[], map[];
    }

    method ReserveOrder(o: OrderId, now: nat)
      modifies `orders
      ensures State() == Reserve(old(State()), o, now)
    {
      if o !in orders {
        orders := orders[o := Order(PRICE, now + RESERVATION_SECONDS, None, AwaitingPayment, 0)];
      }
    }

    method LinkOrder(o: OrderId, i: IntentId) returns (failure: Option<Failure>)
      modifies `orders, `byIntent
      ensures Link(old(State()), o, i) == if failure.Some? then Thrown(failure.value) else Ok(State())
      ensures failure.Some? ==> State() == old(State())
    {
      failure := None;
      if o in orders {
        if i in byIntent && byIntent[i] != o { return Some(UniqueViolation); }
        if orders[o].intentId.Some? { byIntent := byIntent - {orders[o].intentId.value}; }
        byIntent := byIntent[i := o];
        orders := orders[o := orders[o].(intentId := Some(i))];
      }
    }

    method AcceptEvent(e: Event) returns (r: Result<Answer, Refusal>)
      modifies `orders, `receipts
      ensures r.Ok? ==> Accept(old(State()), e) == Ok((State(), r.value))
      ensures r.Thrown? ==> Accept(old(State()), e) == Thrown(r.error) && State() == old(State())
    {
      if e.id in receipts {
        return if receipts[e.id] != e then Thrown(PayloadConflict) else Ok(Duplicate);
      }
      var o := if e.intentId in byIntent && byIntent[e.intentId] in orders then Some(byIntent[e.intentId]) else None;
      if o.None? || orders[o.value].amount != e.expected { return Thrown(UnknownOrder); }
      var order := orders[o.value];
      if e.kind == PaymentConfirmed {
        if e.status !in {PAID, PAID_LATE} || e.received < order.amount { return Thrown(InconsistentConfirmation); }
        if e.status == PAID && order.fulfillments == 0 {
          order := order.(status := Fulfilled, fulfillments := 1);
        } else if e.status == PAID_LATE && order.fulfillments == 0 {
          order := order.(status := NeedsReview);
        }
      } else if e.kind == PaymentReverted {
        order := order.(status := NeedsReview);
      } else if e.kind == PaymentExpired && order.status == AwaitingPayment {
        order := order.(status := OrderExpired);
      }
      receipts := receipts[e.id := e];
      orders := orders[o.value := order];
      return Ok(Accepted);
    }
  }
}
