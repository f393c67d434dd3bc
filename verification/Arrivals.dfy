/** What the shop makes of the webhooks that reach it, src/examples/merchant.ts. */
module ArrivalFacts {
  import opened Domain
  import opened Results
  import opened Database
  import opened Reconciliation
  import opened ServerInvariant
  import opened DeliveryModel
  import opened MerchantModel
  import opened SystemModel
  import opened SystemInvariant
  import opened SystemRuns
  import opened EndToEnd

  // ---- Orders -----------------------------------------------------------------------------------

  /** The first reservation of an order fixes a price of one USDC and an expiry two hours on, and a later one changes
      nothing. */
  lemma ReservedOrder(m: Merchant, o: OrderId, now: nat)
    ensures var after := Reserve(m, o, now);
            && o in after.orders && after.byIntent == m.byIntent && after.receipts == m.receipts
            && after.orders == m.orders[o := after.orders[o]]
            && if o in m.orders then after == m
               else
                 var order := after.orders[o];
                 && order.amount == 1_000_000 && order.expiresAt == now + 7_200
                 && order.intentId == None && order.status == AwaitingPayment && order.fulfillments == 0
  {
    if o in m.orders { assert m.orders == m.orders[o := m.orders[o]]; }
  }

  /** Linking an order gives it the intent, and the intent to it alone; it fails exactly if the intent belongs to
      another order. */
  lemma LinkedOrder(m: Merchant, o: OrderId, i: IntentId)
    requires forall j <- m.byIntent :: m.byIntent[j] in m.orders && m.orders[m.byIntent[j]].intentId == Some(j)
    ensures if o !in m.orders then Link(m, o, i) == Ok(m)
            else if i in m.byIntent && m.byIntent[i] != o then Link(m, o, i) == Thrown(UniqueViolation)
            else
              && Link(m, o, i).Ok?
              && var after := Link(m, o, i).value;
                 && after.receipts == m.receipts && o in after.orders
                 && after.orders == m.orders[o := m.orders[o].(intentId := Some(i))]
                 && i in after.byIntent && after.byIntent[i] == o
                 && forall j <- after.byIntent :: j == i || (j in m.byIntent && after.byIntent[j] == m.byIntent[j] != o)
  {
  }

  // ---- Events -----------------------------------------------------------------------------------

  /** What the first arrival of an event does to its order. A confirmation in time fulfils an order once; a late one and
      any reversal put an order into review, a late one only if it was not fulfilled; an expiry closes an order that
      still waits. Nothing else changes an order, and price, expiry and intent never change. */
  ghost predicate Answered(order: Order, e: Event, after: Order) {
    && after.amount == order.amount && after.expiresAt == order.expiresAt && after.intentId == order.intentId
    && (if e.kind == PaymentConfirmed && e.status == PAID && order.fulfillments == 0
        then after.status == Fulfilled && after.fulfillments == 1
        else
          && after.fulfillments == order.fulfillments
          && after.status ==
               if e.kind == PaymentReverted then NeedsReview
               else if e.kind == PaymentConfirmed && order.fulfillments == 0 then NeedsReview
               else if e.kind == PaymentExpired && order.status == AwaitingPayment then OrderExpired
               else order.status)
  }

  /** The shop's answer to any event: what it has seen it knows again or finds altered; of what is new it refuses what
      fits no order of that price, and a confirmation that does not confirm the price; and it records the rest. */
  lemma AcceptAnswers(m: Merchant, e: Event)
    ensures var linked := e.intentId in m.byIntent && m.byIntent[e.intentId] in m.orders;
            var o := if linked then Some(m.byIntent[e.intentId]) else None;
            if e.id in m.receipts then
              Accept(m, e) == if m.receipts[e.id] == e then Ok((m, Duplicate)) else Thrown(PayloadConflict)
            else if o == None || m.orders[o.value].amount != e.expected then Accept(m, e) == Thrown(UnknownOrder)
            else if e.kind == PaymentConfirmed
                && (e.status !in {PAID, PAID_LATE} || e.received < m.orders[o.value].amount)
            then Accept(m, e) == Thrown(InconsistentConfirmation)
            else
              && Accept(m, e).Ok?
              && var (after, answer) := Accept(m, e).value;
                 && answer == Accepted && after.byIntent == m.byIntent && after.receipts == m.receipts[e.id := e]
                 && o.value in after.orders && after.orders == m.orders[o.value := after.orders[o.value]]
                 && (e.kind == PaymentConfirmed ==> e.status in {PAID, PAID_LATE})
                 && Answered(m.orders[o.value], e, after.orders[o.value])
  {
  }

  /** In every reachable state: an event that arrives for the first time and belongs to an order is recorded and does to
      the order what it should; one that arrives again, or belongs to no order yet, changes nothing. */
  lemma ArrivalAnswers(config: Config, steps: seq<Step>, e: Event)
    requires config.Valid() && e in Run(config, steps).wire
    ensures var m, after := Run(config, steps).merchant, Run(config, steps + [Arrived(e)]).merchant;
            if e.id in m.receipts || e.intentId !in m.byIntent then after == m
            else
              var o := m.byIntent[e.intentId];
              && o in m.orders && m.orders[o].intentId == Some(e.intentId) && o in after.orders
              && after.byIntent == m.byIntent && after.receipts == m.receipts[e.id := e]
              && after.orders == m.orders[o := after.orders[o]] && Answered(m.orders[o], e, after.orders[o])
  {
    hide *;
    var s := Run(config, steps);
    RunOneMore(config, steps, Arrived(e));
    SysInvHas(s, config);
    Delivered(s, config, e);
    AcceptedIffLinked(s.server, s.merchant, e);
    AcceptAnswers(s.merchant, e);
    ArrivalStep(s, config, e);
  }

  lemma Delivered(s: System, config: Config, e: Event)
    requires SysInv(s, config) && e in s.wire
    ensures Inv(s.server) && e in s.server.outbox && LinkedByKey(s.server, s.merchant)
            && ReceiptsOk(s.server, s.merchant)
    ensures e.intentId in s.merchant.byIntent ==>
              && s.merchant.byIntent[e.intentId] in s.merchant.orders
              && s.merchant.orders[s.merchant.byIntent[e.intentId]].intentId == Some(e.intentId)
  {
    hide Inv;
  }

  lemma ArrivalStep(s: System, config: Config, e: Event)
    requires Keyed(s.server) && e in s.wire
    ensures Next(s, config, Arrived(e)).merchant
         == match Accept(s.merchant, e) case Ok((m, _)) => m case Thrown(_) => s.merchant
  {
    hide Accept, Keyed;
  }
}
