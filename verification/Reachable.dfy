/** The merchant server's promises, for every state that any run of the system reaches. */
module Reachable {
  import opened Domain
  import opened Sums
  import opened ProjectionModel
  import opened CrossingFacts
  import opened Database
  import opened Reconciliation
  import opened ServerInvariant
  import opened ServerFacts
  import opened DeliveryModel
  import opened SystemModel
  import opened EndToEnd
  import opened CheckoutModel

  /** Each stored projection is a fold of the settlements table: its amounts are sums of matched value, no matched
      value is lost, and the amounts decide the status. A row names an intent exactly if it is MATCHED. */
  lemma ProjectionsAreFolds(config: Config, steps: seq<Step>, i: IntentId)
    requires config.Valid() && i in Run(config, steps).server.intents
    ensures var db := Run(config, steps).server;
            && i in db.projections
            && var p, expected := db.projections[i], db.intents[i].expected;
               && expected > 0
               && p.received == SumIf(db.settlements, Of(i, Creditable))
               && p.pending == SumIf(db.settlements, Of(i, Pending))
               && p.received + p.pending + SumIf(db.settlements, Of(i, Reverted)) == SumIf(db.settlements, Of(i, Any))
               && p.overpayment == (if p.received > expected then p.received - expected else 0)
               && (Paid(p) <==> p.received >= expected)
               && (p.status == PARTIAL <==> 0 < p.received < expected)
               && (p.status in {OPEN, EXPIRED} <==> p.received == 0)
    ensures forall row <- Run(config, steps).server.settlements :: row.intentId.Some? <==> row.matchStatus == MATCHED
  {
    ServerIsOk(config, steps);
    var db := Run(config, steps).server;
    hide Run;
    AmountsAreSums(db, i);
    StatusFollowsAmounts(db, i);
    assert Agrees(db.intents[i], db.projections[i], Listed(db.settlements, i));
    assert forall row <- db.settlements :: RowOk(db, row);
    hide LogOk, AgreesBut, Listed;
  }

  /** If timestamps follow the chain, PAID says that what is credited with a stamp at or before expiry covers the
      expected amount. */
  lemma PaidMeansOnTime(config: Config, steps: seq<Step>, i: IntentId)
    requires config.Valid() && i in Run(config, steps).server.intents
    requires Chronological(Filter(Listed(Run(config, steps).server.settlements, i), Creditable))
    ensures var db := Run(config, steps).server;
            var creditable := Filter(Listed(db.settlements, i), Creditable);
            && i in db.projections
            && (db.projections[i].status == PAID <==>
                  SumIf(creditable, StampedBy(db.intents[i].expiresAt)) >= db.intents[i].expected)
            && (db.projections[i].status == PAID_LATE <==>
                  SumIf(creditable, StampedBy(db.intents[i].expiresAt)) < db.intents[i].expected
                  <= SumIf(creditable, Any))
  {
    ServerIsOk(config, steps);
    var db := Run(config, steps).server;
    hide Run;
    var intent, account := db.intents[i], Listed(db.settlements, i);
    var creditable := Filter(account, Creditable);
    assert Agrees(intent, db.projections[i], account);
    hide Inv, Listed, Chronological, StatusOf;
    SumFilter(account, Creditable, Any, Creditable);
    PaidIffCoveredOnTime(intent, creditable, 0);
    PaidIffCoveredOnTime(intent, creditable, intent.expiresAt);
  }

  /** Confirmations and reversals of an intent alternate in commit order, a confirmation first, and there is one more
      confirmation exactly while the intent counts as paid. */
  lemma EventsFollowProjections(config: Config, steps: seq<Step>, i: IntentId)
    requires config.Valid() && i in Run(config, steps).server.intents
    ensures var db := Run(config, steps).server;
            && TakeTurns(db.outbox, i) && i in db.projections
            && Count(db.outbox, PaymentConfirmed, i)
               == Count(db.outbox, PaymentReverted, i) + if Paid(db.projections[i]) then 1 else 0
  {
    ServerIsOk(config, steps);
    var db := Run(config, steps).server;
    hide Run;
    ConfirmationsAndReversalsTakeTurns(db, i);
    ConfirmedExactlyWhilePaid(db, i);
    hide LogOk, AgreesBut, RowsOk, TakeTurns;
  }

  /** A served request passes the browser's check, and lets the page or the payer pay exactly when nothing at all is
      matched to the intent and it is open, in time and the server ready. */
  lemma ServedRequestsAreSafe(config: Config, steps: seq<Step>, i: IntentId, ready: bool, now: nat)
    requires config.Valid() && i in Run(config, steps).server.intents
    ensures var db := Run(config, steps).server;
            && i in db.projections
            && var q := Served(db, i, ready);
               && Consistent(q)
               && (CanPay(q, now as real) <==> PayerAccepts(q, now))
               && (PayerAccepts(q, now) <==>
                     Unpaid(db, i) && db.projections[i].status == OPEN && now < db.intents[i].expiresAt && ready)
  {
    ServerIsOk(config, steps);
    var db := Run(config, steps).server;
    hide Run;
    ServedIsConsistent(db, i, ready);
    CanPayIff(db, i, ready, now as real);
    PayerAcceptsIff(db, i, ready, now);
    hide RowsOk, LogOk, AgreesBut, CanPay, PayerAccepts, Consistent, Served, Unpaid;
  }
}
