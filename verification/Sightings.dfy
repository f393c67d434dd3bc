/** What the merchant server writes down: of a new request, of every sighting of a note, and of the passing of time. */
module SightingFacts {
  import opened Domain
  import opened Results
  import opened ProjectionModel
  import opened Database
  import opened Reconciliation
  import opened IdempotentCreation
  import opened ServerInvariant
  import opened ServerSteps
  import opened ServerFacts
  import opened ScanFacts
  import opened ServerProgress
  import opened DeliveryModel
  import opened SystemSteps
  import opened ReplayFacts
  import opened EndToEnd
  import opened Sequences

  // ---- Matching ---------------------------------------------------------------------------------

  /** The intent that a note names. */
  ghost predicate Names(db: Db, c: Candidate, i: IntentId) {
    i in db.intents && c.identity.reference == Some(db.intents[i].reference)
  }

  /** A note is matched to an intent exactly if it names it and is of its chain and token; it is in conflict if it names
      one of another chain or token, and unmatched if it names none. */
  lemma MatchedIff(db: Db, c: Candidate, now: nat)
    requires Keyed(db)
    ensures var row := Row(db, c, now);
            && (forall i :: row.intentId == Some(i) <==>
                  Names(db, c, i) && db.intents[i].chainId == c.identity.chainId
                      && db.intents[i].token == c.identity.token)
            && (row.matchStatus == MATCHED <==> row.intentId.Some?)
            && (row.matchStatus == UNMATCHED <==> forall i :: !Names(db, c, i))
            && (row.matchStatus == CONFLICT <==> row.intentId.None? && exists i :: Names(db, c, i))
  {
    forall i
      ensures Names(db, c, i)
         <==> i in db.intents && FindIntentByReference(db, c.identity.reference) == Some(db.intents[i])
    {
    }
    if c.identity.reference.Some? && c.identity.reference.value in db.byReference {
      assert Names(db, c, db.byReference[c.identity.reference.value]);
    }
  }

  /** Two notes at the same place on chain. */
  predicate SamePlace(a: Identity, b: Identity) {
    a.chainId == b.chainId && a.txidVersion == b.txidVersion && a.transactionHash == b.transactionHash
    && a.tree == b.tree && a.position == b.position
  }

  /** A sighting is refused exactly if a note is stored under its id with another identity, or if none is and another
      note is stored at its place. */
  lemma ReconciledIff(db: Db, c: Candidate, now: nat)
    requires Keyed(db)
    ensures var was := Existing(db, c.id);
            if was.Some? && was.value.seen.identity != c.identity
            then ReconcileTx(db, c, now) == Thrown(IdentityCollision)
            else if was.None? && exists row <- db.settlements :: SamePlace(row.seen.identity, c.identity)
            then ReconcileTx(db, c, now) == Thrown(UniqueViolation)
            else ReconcileTx(db, c, now).Ok?
  {
    assert UtxoTaken(db.settlements, c.identity.Utxo())
      <==> exists row <- db.settlements :: SamePlace(row.seen.identity, c.identity);
    hide RebuildTx, InsertEvent, RowOf, PutRow, Keyed;
  }

  /** What is stored of a note: what was reported of it, except that a credited note reported Spent without proof data
      stays spendable; the time of its first and of this sighting; and the time at which it was first creditable. */
  lemma SightingIsStored(db: Db, c: Candidate, now: nat)
    requires Reconciled(db, c, now)
    ensures var was := Existing(db, c.id);
            var row := Existing(ReconcileTx(db, c, now).value, c.id);
            && row.Some?
            && row.value.seen == c.(poiStatus := row.value.seen.poiStatus)
            && row.value.seen.poiStatus
               == (if c.bucket == Spent && c.poiStatus == UNKNOWN && was.Some? && was.value.seen.poiStatus == SPENDABLE
                   then SPENDABLE else c.poiStatus)
            && row.value.firstSeenAt == (if was.Some? then was.value.firstSeenAt else now)
            && row.value.lastSeenAt == now
            && row.value.eligibleAt == (if was.Some? && was.value.eligibleAt.Some? then was.value.eligibleAt
                                       else if Creditable(row.value) then Some(now) else None)
    ensures forall id: SettlementId | id != c.id ::
              Existing(ReconcileTx(db, c, now).value, id) == Existing(db, id)
  {
    var after, row := ReconcileTx(db, c, now).value, Row(db, c, now);
    ReconciledIsAccepted(db, c, now);
    ReconcileEffect(db, c, now);
    InvRows(db);
    InvRows(after);
    hide Inv, Keyed, RowsOk, ReconcileTx, Derive, Listed, PutRow, Existing;
    forall id: SettlementId ensures Existing(after, id) == if id == c.id then Some(row) else Existing(db, id) {
      ExistingAfterPut(db, after, row, id);
    }
  }

  lemma InvRows(db: Db)
    requires Inv(db)
    ensures RowsOk(db)
  {
    hide RowsOk;
  }

  // ---- A new request ----------------------------------------------------------------------------

  /** The first commit under a key creates an intent exactly for a positive amount that expires later, if the drawn id
      and reference are unused; otherwise it names the reason and changes nothing. */
  lemma CreatedIff(db: Db, q: Request, draw: Draw)
    requires q.key !in db.idempotency
    ensures CommitCreation(db, q, draw).1
         == if q.amount == 0 || q.expiresAt <= q.now then Refused(IntentInput)
            else if draw.id in db.intents || draw.reference in db.byReference then Refused(UniqueViolation)
            else Created(draw.id)
    ensures !CommitCreation(db, q, draw).1.Created? ==> CommitCreation(db, q, draw).0 == db
  {
  }

  /** The new intent has the requested amount and expiry, the drawn reference and the configured chain and token, and
      an open projection without value; nothing else is written. */
  lemma CreatedIntent(db: Db, q: Request, draw: Draw)
    requires CommitCreation(db, q, draw).1.Created?
    ensures var i, after := CommitCreation(db, q, draw).1.intent, CommitCreation(db, q, draw).0;
            && i == draw.id && i !in db.intents && i in after.intents && i in after.projections
            && var intent, p := after.intents[i], after.projections[i];
               && after == db.(intents := db.intents[i := intent], projections := db.projections[i := p],
                               byReference := db.byReference[draw.reference := i],
                               idempotency := db.idempotency[q.key := after.idempotency[q.key]])
               && intent.id == i && intent.reference == draw.reference
               && intent.chainId == draw.chainId && intent.token == draw.token
               && intent.expected == q.amount && intent.expiresAt == q.expiresAt && intent.createdAt == q.now
               && p.status == OPEN && p.received == p.pending == p.overpayment == p.revision == 0
                    && p.updatedAt == q.now
               && q.key in after.idempotency && after.idempotency[q.key].intentId == i
               && after.idempotency[q.key].fingerprint.amount == q.amount
               && after.idempotency[q.key].fingerprint.expiresAt == q.expiresAt
               && after.idempotency[q.key].fingerprint.externalReference == q.externalReference
  {
  }

  /** Notes with the drawn reference find the new intent if they are of its chain and token, and are in conflict, and
      worth nothing to anybody, if they are not. */
  lemma NotesFindTheirIntent(db: Db, q: Request, draw: Draw, c: Candidate, now: nat)
    requires Inv(db) && CommitCreation(db, q, draw).1.Created?
    requires c.identity.amount > 0
    requires Keyed(CommitCreation(db, q, draw).0) && ReconcileTx(CommitCreation(db, q, draw).0, c, now).Ok?
    requires c.identity.reference == Some(draw.reference)
    ensures var created := CommitCreation(db, q, draw).0;
            var after := ReconcileTx(created, c, now).value;
            var row := Existing(after, c.id);
            && row.Some?
            && if c.identity.chainId == draw.chainId && c.identity.token == draw.token
               then row.value.matchStatus == MATCHED && row.value.intentId == Some(draw.id)
               else
                 && row.value.matchStatus == CONFLICT && row.value.intentId == None
                 && after.projections == created.projections
  {
    var created := CommitCreation(db, q, draw).0;
    CommitKeepsInv(db, q, draw);
    CreatedIntent(db, q, draw);
    ReconciledIsAccepted(created, c, now);
    ReconcileEffect(created, c, now);
    MatchedIff(created, c, now);
    assert Names(created, c, draw.id);
    InvRows(created);
    InvRows(ReconcileTx(created, c, now).value);
    hide Inv, Keyed, RowsOk, ReconcileTx, CommitCreation, Row, PutRow, Existing, Derive, Listed;
    ExistingAfterPut(created, ReconcileTx(created, c, now).value, Row(created, c, now), c.id);
  }

  // ---- Projections and events -------------------------------------------------------------------

  /** A sighting that changes the projection of its intent gives it the next revision and this time, and one that does
      not leaves it as it is; no other projection moves. */
  lemma RevisionCounts(db: Db, c: Candidate, i: IntentId, now: nat)
    requires Reconciled(db, c, now) && i in db.intents
    ensures var after := ReconcileTx(db, c, now).value;
            && i in db.projections && i in after.projections
            && var p, next := db.projections[i], after.projections[i];
               && (next != p ==>
                     && Row(db, c, now).intentId == Some(i)
                     && next.revision == p.revision + 1 && next.updatedAt == now
                     && next != p.(revision := next.revision, updatedAt := next.updatedAt))
  {
    hide *;
    ReconciledIsAccepted(db, c, now);
    ReconcileEffect(db, c, now);
    AgreesHere(db, i);
    DerivedTime(db.intents[i], Listed(ReconcileTx(db, c, now).value.settlements, i), db.projections[i], now);
    DerivedRevision(db.intents[i], Listed(ReconcileTx(db, c, now).value.settlements, i), db.projections[i], now);
  }

  lemma DerivedRevision(intent: Intent, account: seq<Settlement>, p: Projection, now: nat)
    ensures var next := Derive(intent, account, p, now);
            next != p ==>
              next.revision == p.revision + 1 && next != p.(revision := next.revision, updatedAt := next.updatedAt)
  {
    hide StatusOf, Filter;
  }

  /** The payloads that a sighting puts into the outbox: the time, the intent, the note and the expected amount; for the
      note itself the projection as it was, for a transition the projection as it is now. Each is due at once. */
  lemma PayloadsTell(db: Db, c: Candidate, i: IntentId, now: nat, k: nat)
    requires Reconciled(db, c, now) && Row(db, c, now).intentId == Some(i)
    requires |db.outbox| <= k < |ReconcileTx(db, c, now).value.outbox|
    ensures i in db.intents && i in db.projections && i in ReconcileTx(db, c, now).value.projections
    ensures var after := ReconcileTx(db, c, now).value;
            var e := after.outbox[k];
            var p := if e.kind == SettlementObserved then db.projections[i] else after.projections[i];
            && e.occurredAt == now && e.intentId == i && e.settlementId == Some(c.id)
            && e.expected == db.intents[i].expected
            && e.status == p.status && e.received == p.received && e.overpayment == p.overpayment
            && e.id == if e.kind == SettlementObserved then ObservedId(c.id) else TransitionId(e.kind, i, p.revision)
  {
    hide *;
    NoteEvents(db, c, i, now);
    RevisionCounts(db, c, i, now);
    ReconciledIsAccepted(db, c, now);
    var after := ReconcileTx(db, c, now).value;
    var kind := TransitionEvent(db.projections[i], after.projections[i]);
    TransitionsMove(db.projections[i], after.projections[i]);
    IntentNamesItself(db, i);
    PayloadFields(db, i, after.projections[i], now, c.id, kind);
    Within(db.outbox, Observation(db, i, c.id, now), Announcement(db, i, after.projections[i], now, c.id, kind), k);
  }

  lemma Within(log: seq<Event>, a: seq<Event>, b: seq<Event>, k: nat)
    requires |log| <= k < |log + a + b| && |a| <= 1 && |b| <= 1
    ensures (log + a + b)[k] in a || (log + a + b)[k] in b
  {
  }

  lemma TransitionsMove(previous: Projection, next: Projection)
    ensures TransitionEvent(previous, next).Some? ==> next != previous
    ensures TransitionEvent(previous, next) != Some(SettlementObserved)
  {
  }

  lemma PayloadFields(db: Db, i: IntentId, next: Projection, now: nat, id: SettlementId, kind: Option<EventType>)
    requires i in db.intents && i in db.projections && db.intents[i].id == i && kind != Some(SettlementObserved)
    ensures |Observation(db, i, id, now)| <= 1 && |Announcement(db, i, next, now, id, kind)| <= 1
    ensures forall e <- Observation(db, i, id, now) ::
              && e.kind == SettlementObserved && e.id == ObservedId(id)
              && e.occurredAt == now && e.intentId == i && e.settlementId == Some(id)
              && e.expected == db.intents[i].expected && e.status == db.projections[i].status
              && e.received == db.projections[i].received && e.overpayment == db.projections[i].overpayment
    ensures forall e <- Announcement(db, i, next, now, id, kind) ::
              && kind == Some(e.kind) && e.id == TransitionId(e.kind, i, db.projections[i].revision + 1)
              && e.occurredAt == now && e.intentId == i && e.settlementId == Some(id)
              && e.expected == db.intents[i].expected && e.status == next.status
              && e.received == next.received && e.overpayment == next.overpayment
  {
  }

  lemma IntentNamesItself(db: Db, i: IntentId)
    requires Inv(db) && i in db.intents
    ensures db.intents[i].id == i
  {
  }

  // ---- The passing of time ----------------------------------------------------------------------

  /** What the clock makes of a projection: an empty request is open before its expiry and expired from then on. */
  ghost predicate Clocked(intent: Intent, p: Projection, next: Projection, now: nat) {
    && next.received == p.received && next.pending == p.pending && next.overpayment == p.overpayment
    && (if p.received > 0 then next == p
        else
          && next.status == (if now >= intent.expiresAt then EXPIRED else OPEN)
          && next.revision == p.revision + (if next.status == p.status then 0 else 1)
          && next.updatedAt == if next.status == p.status then p.updatedAt else now)
  }

  lemma ClockedAtRebuild(db: Db, i: IntentId, now: nat)
    requires Inv(db) && i in db.intents
    ensures i in db.projections && i in RebuildTx(db, i, now, None).projections
    ensures Clocked(db.intents[i], db.projections[i], RebuildTx(db, i, now, None).projections[i], now)
    ensures RebuildTx(db, i, now, None).projections
         == db.projections[i := RebuildTx(db, i, now, None).projections[i]]
    ensures RebuildTx(db, i, now, None).settlements == db.settlements
    ensures var p := db.projections[i];
            RebuildTx(db, i, now, None).outbox == db.outbox +
              if p.status == OPEN && p.received == 0 && now >= db.intents[i].expiresAt
              then [Event(TransitionId(PaymentExpired, i, p.revision + 1), PaymentExpired, now, i, None, EXPIRED, 0,
                          db.intents[i].expected, 0)]
              else []
  {
    hide *;
    InvHasBut(db, i);
    IntentNamesItself(db, i);
    AgreesHere(db, i);
    var p, account := db.projections[i], Listed(db.settlements, i);
    RebuildDerives(db, i, now, None);
    RebuildRecords(db, i, now, None);
    DeriveAgain(db.intents[i], p, account, now);
    AgreedStatus(db.intents[i], p, account);
    var next := Derive(db.intents[i], account, p, now);
    DerivedTime(db.intents[i], account, p, now);
    IsClocked(db.intents[i], p, next, now);
    ExpiryEvent(db.intents[i], p, next, now);
    EventFields(TransitionId(PaymentExpired, i, p.revision + 1), PaymentExpired, db.intents[i], next, now, None);
  }

  lemma EventFields(
    id: EventId, kind: EventType, intent: Intent, p: Projection, now: nat, settlement: Option<SettlementId>)
    ensures EventOf(id, kind, intent, p, now, settlement)
         == Event(id, kind, now, intent.id, settlement, p.status, p.received, intent.expected, p.overpayment)
  {
  }

  lemma AgreesHere(db: Db, i: IntentId)
    requires Inv(db) && i in db.intents
    ensures i in db.projections && Agrees(db.intents[i], db.projections[i], Listed(db.settlements, i))
    ensures db.intents[i].expected > 0
  {
    hide Agrees, Listed, RowsOk, LogOk;
    assert Agrees(db.intents[i], db.projections[i], Listed(db.settlements, i));
    AgreedExpected(db.intents[i], db.projections[i], Listed(db.settlements, i));
  }

  lemma AgreedExpected(intent: Intent, p: Projection, account: seq<Settlement>)
    requires Agrees(intent, p, account)
    ensures intent.expected > 0
  {
  }

  lemma DerivedTime(intent: Intent, account: seq<Settlement>, p: Projection, now: nat)
    ensures var next := Derive(intent, account, p, now); next != p ==> next.updatedAt == now
  {
    hide StatusOf, Filter;
  }

  lemma IsClocked(intent: Intent, p: Projection, next: Projection, now: nat)
    requires next.received == p.received && next.pending == p.pending && next.overpayment == p.overpayment
    requires next == p <==> !ClockMoves(intent, p, now)
    requires next != p ==> next.revision == p.revision + 1 && next.updatedAt == now
    requires next != p ==> next.status == if now >= intent.expiresAt then EXPIRED else OPEN
    ensures Clocked(intent, p, next, now)
  {
  }

  lemma ExpiryEvent(intent: Intent, p: Projection, next: Projection, now: nat)
    requires Clocked(intent, p, next, now) && intent.expected > 0
    requires p.received == 0 <==> p.status in {OPEN, EXPIRED}
    requires p.overpayment == if p.received > intent.expected then p.received - intent.expected else 0
    ensures var kind := TransitionEvent(p, next);
            if p.status == OPEN && p.received == 0 && now >= intent.expiresAt
            then kind == Some(PaymentExpired) && next.status == EXPIRED && next.received == next.overpayment == 0
            else kind == None
  {
  }

  /** The clock has been applied to the listed requests and to no others. */
  ghost predicate AllClocked(db: Db, after: Db, listing: seq<IntentId>, now: nat) {
    && after.settlements == db.settlements && after.intents == db.intents
    && after.projections.Keys == db.projections.Keys == db.intents.Keys
    && forall i <- db.intents ::
         if i in listing then Clocked(db.intents[i], db.projections[i], after.projections[i], now)
         else after.projections[i] == db.projections[i]
  }

  lemma OneMoreClocked(db: Db, before: Db, after: Db, prefix: seq<IntentId>, i: IntentId, now: nat)
    requires AllClocked(db, before, prefix, now) && i !in prefix && i in db.intents
    requires i in before.projections && i in after.projections
    requires Clocked(before.intents[i], before.projections[i], after.projections[i], now)
    requires after.projections == before.projections[i := after.projections[i]]
    requires after.settlements == before.settlements && after.intents == before.intents
    ensures AllClocked(db, after, prefix + [i], now)
  {
    hide Clocked;
  }

  lemma NoneClocked(db: Db, now: nat)
    requires Keyed(db)
    ensures AllClocked(db, RefreshTx(db, [], now), [], now)
  {
  }

  /** A refresh of any listing does what the clock does, once to every listed request and to no other. */
  lemma {:induction false} RefreshClocks(db: Db, listing: seq<IntentId>, now: nat)
    requires Inv(db) && Keyed(db) && NoDuplicates(listing) && forall i <- listing :: i in db.intents
    ensures AllClocked(db, RefreshTx(db, listing, now), listing, now)
    decreases |listing|
  {
    hide *;
    if listing == [] {
      NoneClocked(db, now);
    } else {
      var prefix, i := listing[..|listing| - 1], listing[|listing| - 1];
      PrefixIsListing(db, listing);
      LastIsNew(listing);
      RefreshClocks(db, prefix, now);
      RefreshKeeps(db, prefix, now);
      RefreshUnfold(db, listing, now);
      var before := RefreshTx(db, prefix, now);
      ClockedAtRebuild(before, i, now);
      KeyedAfterRebuild(before, i, now, None);
      OneMoreClocked(db, before, RebuildTx(before, i, now, None), prefix, i, now);
    }
  }

  lemma LastIsNew(listing: seq<IntentId>)
    requires listing != [] && NoDuplicates(listing)
    ensures listing == listing[..|listing| - 1] + [listing[|listing| - 1]]
    ensures listing[|listing| - 1] !in listing[..|listing| - 1]
  {
  }
}
