/** What every reachable state of the system satisfies. */
module SystemInvariant {
  import opened Domain
  import opened Results
  import opened Database
  import opened ServerInvariant
  import opened IdempotentCreation
  import opened DeliveryModel
  import opened MerchantModel
  import opened SystemModel

  // ---- Keys and orders --------------------------------------------------------------------------

  /** UNIQUE(intent_id) on the idempotency table. */
  ghost predicate KeysDistinct(db: Db) {
    forall k <- db.idempotency, l <- db.idempotency ::
      k != l ==> db.idempotency[k].intentId != db.idempotency[l].intentId
  }

  /** A stored order key was requested for that order's own price and expiry. */
  ghost predicate OrderKeysOk(db: Db, m: Merchant) {
    forall o: OrderId | OrderKey(o) in db.idempotency ::
      o in m.orders && db.idempotency[OrderKey(o)].fingerprint
          == Fingerprint(o, m.orders[o].amount, m.orders[o].expiresAt)
  }

  ghost predicate LinkOk(db: Db, m: Merchant, o: OrderId)
    requires o in m.orders
  {
    m.orders[o].intentId.Some? ==>
      && OrderKey(o) in db.idempotency
      && db.idempotency[OrderKey(o)].intentId == m.orders[o].intentId.value
      && m.orders[o].intentId.value in m.byIntent && m.byIntent[m.orders[o].intentId.value] == o
  }

  ghost predicate LinksOk(db: Db, m: Merchant) {
    && (forall o <- m.orders :: LinkOk(db, m, o))
    && (forall i <- m.byIntent :: m.byIntent[i] in m.orders && m.orders[m.byIntent[i]].intentId == Some(i))
  }

  /** Orders, their keys and their intents correspond. */
  ghost predicate LinkedByKey(db: Db, m: Merchant) {
    KeysOk(db) && KeysDistinct(db) && OrderKeysOk(db, m) && LinksOk(db, m)
  }

  // ---- Receipts and fulfilment ------------------------------------------------------------------

  ghost predicate ReceiptsOk(db: Db, m: Merchant) {
    forall id <- m.receipts :: m.receipts[id].id == id && m.receipts[id] in db.outbox
  }

  /** The receipt that justified the fulfilment of `order`. */
  ghost predicate Justifies(e: Event, order: Order) {
    && e.kind == PaymentConfirmed && e.status == PAID && e.received >= order.amount
    && order.intentId == Some(e.intentId)
  }

  ghost predicate OrderOk(m: Merchant, order: Order) {
    && order.fulfillments <= 1
    && (order.status == Fulfilled ==> order.fulfillments == 1)
    && (order.fulfillments == 1 ==> exists id <- m.receipts :: Justifies(m.receipts[id], order))
  }

  ghost predicate OrdersOk(m: Merchant) { forall o <- m.orders :: OrderOk(m, m.orders[o]) }

  // ---- Delivery ---------------------------------------------------------------------------------

  ghost predicate RowState(config: Config, d: Delivery) {
    && !(d.deliveredAt.Some? && d.deadLetteredAt.Some?)
    && (IsPending(d) ==> d.attempts < config.maxAttempts)
    && (d.deadLetteredAt.Some? ==> d.attempts == config.maxAttempts)
    && (d.deliveredAt.Some? ==> 1 <= d.attempts <= config.maxAttempts)
  }

  ghost predicate DeliveryOk(config: Config, db: Db, m: Merchant) {
    && |db.outbox| == |db.delivery|
    && (forall d <- db.delivery :: RowState(config, d))
    && (forall k | 0 <= k < |db.outbox| :: db.delivery[k].deliveredAt.Some? ==> db.outbox[k].id in m.receipts)
  }

  /** The rows a pass has still to settle are as it remembers them. */
  ghost predicate WorkOk(db: Db, work: seq<Snapshot>) {
    && |db.outbox| == |db.delivery|
    && DistinctRows(work)
    && forall s <- work ::
         s.row < |db.outbox| && db.outbox[s.row] == s.event
         && IsPending(db.delivery[s.row]) && db.delivery[s.row].attempts == s.attempts
  }

  ghost predicate ChannelOk(s: System) {
    && (forall e <- s.wire :: e in s.server.outbox)
    && (forall id <- s.answered :: id in s.merchant.receipts)
    && (s.pass.Some? ==> WorkOk(s.server, s.pass.value.work))
  }

  ghost predicate SysInv(s: System, config: Config) {
    && Inv(s.server)
    && LinkedByKey(s.server, s.merchant)
    && ReceiptsOk(s.server, s.merchant) && OrdersOk(s.merchant)
    && DeliveryOk(config, s.server, s.merchant)
    && ChannelOk(s)
  }
}
