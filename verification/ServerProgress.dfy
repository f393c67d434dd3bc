/** What the merchant side lets through: a covering payment is confirmed, and its confirmation fulfils the order. */
module ServerProgress {
  import opened Domain
  import opened Results
  import opened Sums
  import opened ProjectionModel
  import opened Database
  import opened Reconciliation
  import opened ServerInvariant
  import opened ServerSteps
  import opened ServerFacts
  import opened ScanFacts
  import opened MerchantModel
  import opened SystemInvariant
  import opened SystemRuns

  // ---- What a note is worth ---------------------------------------------------------------------

  /** What a stored note, if there is one, contributes to an intent's sum over a class of settlements. */
  function Share(row: Option<Settlement>, i: IntentId, p: Settlement -> bool): nat {
    if row.Some? && Of(i, p)(row.value) then row.value.Amount() else 0
  }

  /** An upsert moves each sum by what the note contributes now instead of before. */
  lemma SumAfterPut(rows: seq<Settlement>, row: Settlement, i: IntentId, p: Settlement -> bool)
    ensures var at := FindRow(rows, row.seen.id);
            SumIf(PutRow(rows, at, row), Of(i, p)) + Share(if at.Some? then Some(rows[at.value]) else None, i, p)
            == SumIf(rows, Of(i, p)) + Share(Some(row), i, p)
  {
    var at := FindRow(rows, row.seen.id);
    if at.Some? {
      var k := at.value;
      SumIfRemove(rows, k, Of(i, p));
      SumIfRemove(rows[k := row], k, Of(i, p));
      assert rows[k := row][..k] + rows[k := row][k + 1..] == rows[..k] + rows[k + 1..];
    } else {
      SumIfConcat(rows, [row], Of(i, p));
      assert [row][1..] == [];
    }
  }

  /** A candidate that the transaction takes. */
  ghost predicate Reconciled(db: Db, c: Candidate, now: nat) {
    Inv(db) && c.identity.amount > 0 && ReconcileTx(db, c, now).Ok?
  }

  lemma ReconciledIsAccepted(db: Db, c: Candidate, now: nat)
    requires Reconciled(db, c, now)
    ensures Inv(db) && Keyed(db) && ServerSteps.Accepted(db, c) && ReconcileTx(db, c, now).Ok?
  {
    hide Inv, RebuildTx, RowOf, PutRow, InsertEvent;
    assert Keyed(db) by { InvKeyed(db); }
  }

  lemma InvKeyed(db: Db)
    requires Inv(db)
    ensures Keyed(db)
  {
  }

  /** A sighting of a note, the first or a later one, moves the amounts of every intent by what the note is worth to it
      now, in place of what it was worth before: by its value when it becomes creditable, back again when it is lost,
      and by nothing when its standing does not change. */
  lemma CreditIsReceived(db: Db, c: Candidate, i: IntentId, now: nat)
    requires Reconciled(db, c, now) && i in db.intents
    ensures var after, was, row := ReconcileTx(db, c, now).value, Existing(db, c.id), Some(Row(db, c, now));
            && Inv(after) && after.intents == db.intents && i in db.projections && i in after.projections
            && after.projections[i].received + Share(was, i, Creditable)
                 == db.projections[i].received + Share(row, i, Creditable)
            && after.projections[i].pending + Share(was, i, Pending)
                 == db.projections[i].pending + Share(row, i, Pending)
  {
    var after := ReconcileTx(db, c, now).value;
    ReconciledIsAccepted(db, c, now);
    ReconcileEffect(db, c, now);
    hide Inv, Row, ReconcileTx, PutRow, Derive, Listed;
    SumAfterPut(db.settlements, Row(db, c, now), i, Creditable);
    SumAfterPut(db.settlements, Row(db, c, now), i, Pending);
    AmountsAreSums(db, i);
    AmountsAreSums(after, i);
  }

  // ---- What is announced ------------------------------------------------------------------------

  /** The event that a change of the received amount calls for, if it calls for one. */
  function Announced(expected: nat, before: nat, wasExpired: bool, received: nat, due: bool): Option<EventType> {
    if before >= expected && received < expected then Some(PaymentReverted)
    else if before < expected && received >= expected then Some(PaymentConfirmed)
    else if 0 < received < expected && received != before then Some(PaymentPartial)
    else if received == 0 && due && !wasExpired then Some(PaymentExpired)
    else None
  }

  /** What follows the sighting in the outbox. */
  function Announcement(
    db: Db, i: IntentId, next: Projection, now: nat, id: SettlementId, kind: Option<EventType>): seq<Event>
    requires i in db.intents && i in db.projections
  {
    if kind.None? then []
    else [EventOf(TransitionId(kind.value, i, db.projections[i].revision + 1), kind.value, db.intents[i], next, now,
                  Some(id))]
  }

  function Observation(db: Db, i: IntentId, id: SettlementId, now: nat): seq<Event>
    requires i in db.intents && i in db.projections
  {
    if Existing(db, id).None? then [ObservedEvent(db, i, id, now)] else []
  }

  /** The tables as the rebuild of a matched sighting finds them. */
  function Sighted(db: Db, c: Candidate, i: IntentId, now: nat): Db
    requires i in db.intents && i in db.projections
  {
    var stored := Stored(db, c, now);
    if Existing(db, c.id).None? then InsertEvent(stored, ObservedEvent(stored, i, c.id, now)) else stored
  }

  lemma SightedThenRebuilt(db: Db, c: Candidate, i: IntentId, now: nat)
    requires Keyed(db) && ReconcileTx(db, c, now).Ok? && Row(db, c, now).intentId == Some(i)
    requires i in db.intents && i in db.projections
    ensures var sighted := Sighted(db, c, i, now);
            && i in sighted.intents && i in sighted.projections
            && ReconcileTx(db, c, now) == Ok(RebuildTx(sighted, i, now, Some(c.id)))
  {
    var stored := Stored(db, c, now);
    hide Keyed, RebuildTx, RowOf, PutRow, InsertEvent;
    EventKeepsTables(stored, ObservedEvent(stored, i, c.id, now));
  }

  lemma SightedIsReady(db: Db, c: Candidate, i: IntentId, now: nat)
    requires Inv(db) && ServerSteps.Accepted(db, c) && Row(db, c, now).intentId == Some(i)
    ensures i in db.intents && i in db.projections
    ensures var sighted := Sighted(db, c, i, now);
            && InvBut(sighted, i) && sighted.intents == db.intents && sighted.projections == db.projections
            && sighted.outbox == db.outbox + Observation(db, i, c.id, now)
  {
    var stored := Stored(db, c, now);
    hide Inv, InvBut, RowOf, PutRow, InsertEvent, EventOf;
    StoredInvBut(db, c, now);
    assert i in db.intents && i in db.projections by { InvButKnows(stored, i); }
    if Existing(db, c.id).None? {
      StoredObserved(db, c, now);
      EventKeepsTables(stored, ObservedEvent(stored, i, c.id, now));
    }
  }

  lemma InvButKnows(db: Db, i: IntentId)
    requires InvBut(db, i)
    ensures Keyed(db) && i in db.intents && i in db.projections
  {
  }

  lemma RebuildAnnounces(db: Db, i: IntentId, now: nat, id: SettlementId)
    requires InvBut(db, i) && i in db.projections
    ensures var after := RebuildTx(db, i, now, Some(id));
            && i in after.projections
            && after.outbox == db.outbox
                 + Announcement(db, i, after.projections[i], now, id,
                     TransitionEvent(db.projections[i], after.projections[i]))
  {
    hide Inv, InvBut, Keyed, RowsOk, LogOk, AgreesBut, Agrees, RebuildTx, TransitionEvent, EventOf, Derive, Listed;
    InvButKnows(db, i);
    RebuildRecords(db, i, now, Some(id));
    RebuildDerives(db, i, now, Some(id));
  }

  /** A matched sighting records, in this order, that the note was observed if it is new, and the one event that the new
      amount calls for. */
  lemma NoteEvents(db: Db, c: Candidate, i: IntentId, now: nat)
    requires Reconciled(db, c, now) && Row(db, c, now).intentId == Some(i)
    ensures i in db.intents && i in db.projections
    ensures var after := ReconcileTx(db, c, now).value;
            && i in after.projections
            && after.outbox == db.outbox + Observation(db, i, c.id, now)
                 + Announcement(db, i, after.projections[i], now, c.id,
                     TransitionEvent(db.projections[i], after.projections[i]))
  {
    ReconciledIsAccepted(db, c, now);
    hide *;
    SightedIsReady(db, c, i, now);
    var sighted := Sighted(db, c, i, now);
    RebuildAnnounces(sighted, i, now, c.id);
    SightedThenRebuilt(db, c, i, now);
    SameAnnouncement(db, sighted, i, ReconcileTx(db, c, now).value.projections[i], now, c.id);
  }

  lemma SameAnnouncement(db: Db, sighted: Db, i: IntentId, next: Projection, now: nat, id: SettlementId)
    requires i in db.intents && i in db.projections && sighted.intents == db.intents
             && sighted.projections == db.projections
    ensures forall kind :: Announcement(sighted, i, next, now, id, kind) == Announcement(db, i, next, now, id, kind)
  {
    hide EventOf;
  }

  /** A rebuilt status is EXPIRED exactly if nothing is received and the expiry has come. */
  lemma RebuiltExpiry(intent: Intent, account: seq<Settlement>, previous: Projection, now: nat)
    ensures var p := Derive(intent, account, previous, now);
            p.status == EXPIRED <==> p.received == 0 && intent.expected > 0 && now >= intent.expiresAt
  {
    hide Crossing, Ordered;
  }

  /** The events in terms of value. A loss that leaves a paid request short is announced as a reversal even where
      something remains received, and as nothing else. */
  lemma NoteAnnounces(db: Db, c: Candidate, i: IntentId, now: nat)
    requires Reconciled(db, c, now) && Row(db, c, now).intentId == Some(i)
    ensures i in db.intents && i in db.projections
    ensures var after, before := ReconcileTx(db, c, now).value, db.projections[i];
            && i in after.projections
            && after.projections[i].received
               == before.received
                  + Share(Some(Row(db, c, now)), i, Creditable) - Share(Existing(db, c.id), i, Creditable)
            && var kind := Announced(db.intents[i].expected, before.received, before.status == EXPIRED,
                                     after.projections[i].received, now >= db.intents[i].expiresAt);
               after.outbox == db.outbox + Observation(db, i, c.id, now)
                               + Announcement(db, i, after.projections[i], now, c.id, kind)
    ensures var p := ReconcileTx(db, c, now).value.projections[i];
            p.status == EXPIRED <==> p.received == 0 && now >= db.intents[i].expiresAt
  {
    NoteEvents(db, c, i, now);
    CreditIsReceived(db, c, i, now);
    ReconciledIsAccepted(db, c, now);
    ReconcileEffect(db, c, now);
    var after := ReconcileTx(db, c, now).value;
    RebuiltExpiry(db.intents[i], Listed(after.settlements, i), db.projections[i], now);
    hide Inv, ReconcileTx, Row, Derive, Share;
    StatusFollowsAmounts(db, i);
    StatusFollowsAmounts(after, i);
  }

  /** A note that becomes creditable and completes the expected amount, at its first sighting or at a later one, makes
      the intent paid and announces it. */
  lemma CoveringNoteConfirms(db: Db, c: Candidate, i: IntentId, now: nat)
    requires Reconciled(db, c, now) && Row(db, c, now).intentId == Some(i) && Creditable(Row(db, c, now))
    requires Share(Existing(db, c.id), i, Creditable) == 0
    requires i in db.intents && i in db.projections && !Paid(db.projections[i])
    ensures var after, received := ReconcileTx(db, c, now).value, db.projections[i].received + c.identity.amount;
            && i in after.projections && (Paid(after.projections[i]) <==> received >= db.intents[i].expected)
            && (received >= db.intents[i].expected ==>
                  && |after.outbox| == |db.outbox| + (if Existing(db, c.id).None? then 2 else 1)
                  && var e := after.outbox[|after.outbox| - 1];
                     && e.kind == PaymentConfirmed && e.intentId == i && e.status == after.projections[i].status
                     && e.received == received && e.expected == db.intents[i].expected)
  {
    NoteAnnounces(db, c, i, now);
    CreditIsReceived(db, c, i, now);
    assert Row(db, c, now).Amount() == c.identity.amount;
    var after := ReconcileTx(db, c, now).value;
    hide Inv, ReconcileTx, Row;
    StatusFollowsAmounts(db, i);
    StatusFollowsAmounts(after, i);
  }

  // ---- Fulfilment -------------------------------------------------------------------------------

  /** The first arrival of a timely confirmation fulfils a linked order that is not fulfilled yet, whatever other events
      came before it. */
  lemma ConfirmationFulfils(db: Db, m: Merchant, e: Event)
    requires Inv(db) && LinkedByKey(db, m) && ReceiptsOk(db, m) && e in db.outbox
    requires e.kind == PaymentConfirmed && e.status == PAID && e.id !in m.receipts && e.intentId in m.byIntent
    ensures m.byIntent[e.intentId] in m.orders && Accept(m, e).Ok?
    ensures var o, after := m.byIntent[e.intentId], Accept(m, e).value.0;
            && o in after.orders
            && (m.orders[o].fulfillments == 0 ==>
                 after.orders[o].status == Fulfilled && after.orders[o].fulfillments == 1)
            && (m.orders[o].fulfillments != 0 ==> after.orders[o] == m.orders[o])
  {
    hide Inv, LinkedByKey, ReceiptsOk, EventOk, LogOk;
    InvEvent(db, e);
    LinkedEventFits(db, m, e);
    FittingConfirmation(m, e);
  }

  lemma FittingConfirmation(m: Merchant, e: Event)
    requires e.kind == PaymentConfirmed && e.status == PAID && e.id !in m.receipts
    requires var o := OrderFor(m, e.intentId);
             o.Some? && m.orders[o.value].amount == e.expected && Consistent(m.orders[o.value], e)
    ensures Accept(m, e).Ok?
    ensures var o := OrderFor(m, e.intentId).value;
            && o in Accept(m, e).value.0.orders
            && Accept(m, e).value.0.orders[o] ==
                 if m.orders[o].fulfillments == 0 then m.orders[o].(status := Fulfilled, fulfillments := 1)
                     else m.orders[o]
  {
    hide Consistent;
  }
}
