/** The merchant server, the webhook channel and the merchant store as one system. */
module SystemModel {
  import opened Domain
  import opened Results
  import opened Sequences
  import opened Database
  import opened Reconciliation
  import opened IdempotentCreation
  import opened DeliveryModel
  import opened MerchantModel

  /** A delivery pass in memory; `posted` while the request for the first record is outstanding. */
  datatype PassState = PassState(now: nat, work: seq<Snapshot>, posted: bool)

  /** `wire` holds every webhook ever sent: any of them may arrive, in any order, any number of times.
      `answered` holds the events to which the merchant has sent a success response. */
  datatype System = System(
    server: Db, pass: Option<PassState>, wire: set<Event>, answered: set<EventId>, merchant: Merchant)

  datatype Step =
    // merchant API on the server, and the scanner
    | ClientCreates(n: nat, externalReference: nat, amount: nat, expiresAt: nat, draw: Draw, now: nat)
    | Scanned(candidate: Candidate, now: nat)
    | Refreshed(listing: seq<IntentId>, now: nat)
    | ReplayRequested(id: EventId, now: nat)
    // the shop: POST /orders/:id suspends between these steps
    | OrderReserved(order: OrderId, now: nat)
    | OrderIntentRequested(order: OrderId, draw: Draw, now: nat)
    | OrderLinked(order: OrderId)
    // delivery: passes are serialised, each record is posted and then settled
    | PassStarted(now: nat)
    | Posted
    | Settles(ok: bool)
    | ServerCrashed
    | Arrived(event: Event)

  const INIT := System(EMPTY, None, {}, {}, NO_ORDERS)

  predicate ValidListing(db: Db, listing: seq<IntentId>) {
    && |listing| <= LISTING_LIMIT
    && (forall i <- listing :: i in db.intents)
    && NoDuplicates(listing)
  }

  function OrderRequest(o: OrderId, order: Order, now: nat): Request {
    Request(OrderKey(o), o, order.amount, order.expiresAt, now)
  }

  /** The tables after a step that is about the server alone. */
  function ServerStep(db: Db, config: Config, step: Step): Db
    requires Keyed(db)
  {
    match step
    case ClientCreates(n, reference, amount, expiresAt, draw, now) =>
      CommitCreation(db, Request(ClientKey(n), reference, amount, expiresAt, now), draw).0
    case Scanned(c, now) =>
      // the scanner drops notes without value
      if c.identity.amount > 0 && ReconcileTx(db, c, now).Ok? then ReconcileTx(db, c, now).value else db
    case Refreshed(listing, now) => if ValidListing(db, listing) then RefreshTx(db, listing, now) else db
    case ReplayRequested(id, now) => Update(db, id, MarkReplayed(now))
    case _ => db
  }

  function Next(s: System, config: Config, step: Step): System
    requires Keyed(s.server)
  {
    match step
    case OrderReserved(o, now) => s.(merchant := Reserve(s.merchant, o, now))
    case OrderIntentRequested(o, draw, now) =>
      if o in s.merchant.orders
      then s.(server := CommitCreation(s.server, OrderRequest(o, s.merchant.orders[o], now), draw).0)
      else s
    case OrderLinked(o) =>
      // the response to a request for this order names the intent stored under its key
      if OrderKey(o) in s.server.idempotency then
        match Link(s.merchant, o, s.server.idempotency[OrderKey(o)].intentId)
        case Ok(m) => s.(merchant := m)
        case Thrown(_) => s
      else s
    case PassStarted(now) =>
      if s.pass.None? then s.(pass := Some(PassState(now, Snapshots(s.server, now), false))) else s
    case Posted =>
      if s.pass.Some? && s.pass.value.work != [] && !s.pass.value.posted
      then s.(wire := s.wire + {s.pass.value.work[0].event}, pass := Some(s.pass.value.(posted := true)))
      else s
    case Settles(ok) =>
      if s.pass.Some? && s.pass.value.work != [] && s.pass.value.posted
         && (ok ==> s.pass.value.work[0].event.id in s.answered)
      then
        var p := s.pass.value;
        s.(server := Settled(s.server, config, p.work[0], ok, p.now),
           pass := if |p.work| == 1 then None else Some(PassState(p.now, p.work[1..], false)))
      else if s.pass.Some? && s.pass.value.work == [] then s.(pass := None)
      else s
    case ServerCrashed => s.(pass := None)
    case Arrived(e) =>
      if e in s.wire then
        match Accept(s.merchant, e)
        case Ok((m, _)) => s.(merchant := m, answered := s.answered + {e.id})
        case Thrown(_) => s
      else s
    case _ => s.(server := ServerStep(s.server, config, step))
  }
}
