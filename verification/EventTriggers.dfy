/** What docs/PAYMENT-STATES.md says triggers `payment.partial` and `payment.expired`, against when the code announces
    them. */
module EventTriggers {
  import opened Domain
  import opened Results
  import opened ProjectionModel
  import opened Database
  import opened Reconciliation
  import opened IdempotentCreation
  import opened ServerInvariant
  import opened ServerSteps
  import opened ServerFacts
  import opened ScanFacts
  import opened ServerProgress
  import opened DeliveryModel
  import opened SystemModel
  import EndToEnd

  /** The one event for a received amount that changes, of a request that expires or not. */
  predicate CalledFor(kind: Option<EventType>, expected: nat, before: nat, received: nat, due: bool) {
    && (kind == Some(PaymentPartial) <==> before < expected && 0 < received < expected)
    && (kind == Some(PaymentReverted) <==> received < expected <= before)
    && (kind == Some(PaymentConfirmed) <==> before < expected <= received)
    && (kind == Some(PaymentExpired) <==> before < expected && received == 0 && due)
    && kind != Some(SettlementObserved)
  }

  /** A sighting that changes the received amount is announced as `payment.partial` if and only if the request was not
      covered before and is partly covered now. A loss from a covered request is announced as a reversal, one that
      leaves nothing of an uncovered request as its expiry if that has come, and otherwise not at all. */
  lemma PartialIsAnnouncedIff(db: Db, c: Candidate, i: IntentId, now: nat) returns (kind: Option<EventType>)
    requires Reconciled(db, c, now) && Row(db, c, now).intentId == Some(i)
    requires Share(Existing(db, c.id), i, Creditable) != Share(Some(Row(db, c, now)), i, Creditable)
    ensures i in db.intents && i in db.projections && i in ReconcileTx(db, c, now).value.projections
    ensures var before, after := db.projections[i], ReconcileTx(db, c, now).value;
            && before.received != after.projections[i].received
            && CalledFor(kind, db.intents[i].expected, before.received, after.projections[i].received,
                         now >= db.intents[i].expiresAt)
            && after.outbox == db.outbox + Observation(db, i, c.id, now)
                               + Announcement(db, i, after.projections[i], now, c.id, kind)
  {
    hide *;
    NoteAnnounces(db, c, i, now);
    ReconciledIsAccepted(db, c, now);
    StatusFollowsAmounts(db, i);
    var before, received := db.projections[i], ReconcileTx(db, c, now).value.projections[i].received;
    var expected, due := db.intents[i].expected, now >= db.intents[i].expiresAt;
    PositiveExpected(db, i);
    kind := Announced(expected, before.received, before.status == EXPIRED, received, due);
    AnnouncedIsCalledFor(expected, before.received, before.status == EXPIRED, received, due);
  }

  lemma PositiveExpected(db: Db, i: IntentId)
    requires Inv(db) && i in db.intents
    ensures db.intents[i].expected > 0
  {
    hide RowsOk, LogOk, Listed;
    assert Agrees(db.intents[i], db.projections[i], Listed(db.settlements, i));
  }

  lemma AnnouncedIsCalledFor(expected: nat, before: nat, wasExpired: bool, received: nat, due: bool)
    requires expected > 0 && before != received && (wasExpired ==> before == 0)
    ensures CalledFor(Announced(expected, before, wasExpired, received, due), expected, before, received, due)
  {
  }

  /** A request that becomes EXPIRED at a sighting is announced as such if and only if it was not paid before; from paid
      it is announced as a reversal, and as nothing else. */
  lemma ExpiredIsAnnouncedIff(db: Db, c: Candidate, i: IntentId, now: nat)
    requires Reconciled(db, c, now) && Row(db, c, now).intentId == Some(i)
    requires var after := ReconcileTx(db, c, now).value;
             && i in after.projections && i in db.projections && i in db.intents
             && after.projections[i].status == EXPIRED != db.projections[i].status
    ensures var after := ReconcileTx(db, c, now).value;
            var kind := if Paid(db.projections[i]) then PaymentReverted else PaymentExpired;
            after.outbox == db.outbox + Observation(db, i, c.id, now)
                            + Announcement(db, i, after.projections[i], now, c.id, Some(kind))
  {
    hide *;
    ReconciledIsAccepted(db, c, now);
    NoteEvents(db, c, i, now);
    ExpiredTransition(db.projections[i], ReconcileTx(db, c, now).value.projections[i]);
  }

  lemma ExpiredTransition(previous: Projection, next: Projection)
    requires next.status == EXPIRED != previous.status
    ensures TransitionEvent(previous, next) == Some(if Paid(previous) then PaymentReverted else PaymentExpired)
  {
  }

  // ---- Runs that lose a note --------------------------------------------------------------------

  function Note(position: nat, status: ChainStatus): Candidate {
    var identity := Identity(0, 0, 0, position, 0, 0, 1, Some(0));
    Candidate(identity.Utxo(), identity, 1, 1, Spendable, status, SPENDABLE)
  }

  const EXPIRY: nat := 10

  function RequestFor(expected: nat): Intent { Intent(0, 0, 0, 0, expected, EXPIRY, 0) }

  /** The rows of the first `n` notes of one each, all creditable. */
  ghost predicate Notes(rows: seq<Settlement>, n: nat) {
    && |rows| == n
    && forall k | 0 <= k < n ::
         && rows[k].seen.identity == Note(k, FINALIZED).identity && rows[k].seen.id == Note(k, FINALIZED).id
         && rows[k].intentId == Some(0) && Creditable(rows[k])
  }

  ghost predicate Requested(db: Db, expected: nat) {
    0 in db.intents && db.intents[0] == RequestFor(expected) && 0 in db.byReference && db.byReference[0] == 0
  }

  /** The request, with as many notes of one. */
  ghost predicate Collected(db: Db, expected: nat, n: nat) {
    Inv(db) && Requested(db, expected) && Notes(db.settlements, n) && 0 in db.projections
        && db.projections[0].received == n
  }

  lemma NewRow(db: Db, expected: nat, c: Candidate, now: nat)
    requires Keyed(db) && FindRow(db.settlements, c.id).None?
    requires Requested(db, expected)
    requires c.identity == Note(c.identity.position, FINALIZED).identity && c.poiStatus == SPENDABLE
             && c.bucket == Spendable
    ensures Row(db, c, now).intentId == Some(0) && Row(db, c, now).seen == c
    ensures Creditable(Row(db, c, now)) <==> c.chainStatus == FINALIZED
    ensures Existing(db, c.id).None?
    ensures !UtxoTaken(db.settlements, c.identity.Utxo()) ==> ReconcileTx(db, c, now).Ok?
  {
    hide RebuildTx, InsertEvent, PutRow;
  }

  lemma NoteIsNew(rows: seq<Settlement>, n: nat)
    requires Notes(rows, n)
    ensures FindRow(rows, Note(n, FINALIZED).id).None? && !UtxoTaken(rows, Note(n, FINALIZED).identity.Utxo())
  {
    var c := Note(n, FINALIZED);
    forall row <- rows ensures row.seen.id != c.id && row.seen.identity.Utxo() != c.identity.Utxo() {
      var k :| 0 <= k < n && rows[k] == row;
    }
  }

  lemma NotesGrow(rows: seq<Settlement>, n: nat, row: Settlement)
    requires Notes(rows, n) && row.seen == Note(n, FINALIZED) && row.intentId == Some(0) && Creditable(row)
    ensures Notes(PutRow(rows, None, row), n + 1)
  {
  }

  lemma CollectedHas(db: Db, expected: nat, n: nat)
    requires Collected(db, expected, n)
    ensures Inv(db) && Keyed(db) && Requested(db, expected) && Notes(db.settlements, n) && 0 in db.intents
            && 0 in db.projections
    ensures db.projections[0].received == n
  {
    hide Inv, Notes;
    InvKeyed(db);
  }

  lemma NewShares(db: Db, c: Candidate, now: nat)
    requires Existing(db, c.id).None? && Row(db, c, now).intentId == Some(0) && Row(db, c, now).seen == c
             && Creditable(Row(db, c, now))
    ensures Share(Existing(db, c.id), 0, Creditable) == 0
            && Share(Some(Row(db, c, now)), 0, Creditable) == c.identity.amount
  {
    hide Row, Existing;
  }

  lemma StillCollected(db: Db, expected: nat, n: nat)
    requires Inv(db) && Requested(db, expected) && Notes(db.settlements, n) && 0 in db.projections
             && db.projections[0].received == n
    ensures Collected(db, expected, n)
  {
  }

  lemma NoteComes(db: Db, expected: nat, n: nat, now: nat)
    requires Collected(db, expected, n)
    ensures Keyed(db) && ReconcileTx(db, Note(n, FINALIZED), now).Ok?
    ensures Collected(ReconcileTx(db, Note(n, FINALIZED), now).value, expected, n + 1)
  {
    var c := Note(n, FINALIZED);
    assert c.identity == Note(c.identity.position, FINALIZED).identity && c.identity.amount == 1
        && c.chainStatus == FINALIZED;
    hide Collected, Inv, Keyed, ReconcileTx, Row, FindRow, UtxoTaken, Listed, Derive, Share, Notes, PutRow,
    Creditable, Existing;
    CollectedHas(db, expected, n);
    NoteIsNew(db.settlements, n);
    NewRow(db, expected, c, now);
    var after := ReconcileTx(db, c, now).value;
    NewShares(db, c, now);
    CreditIsReceived(db, c, 0, now);
    ReconciledIsAccepted(db, c, now);
    ReconcileEffect(db, c, now);
    NotesGrow(db.settlements, n, Row(db, c, now));
    StillCollected(after, expected, n + 1);
  }

  /** The last note is lost. */
  lemma LostRow(db: Db, expected: nat, n: nat, now: nat)
    requires Keyed(db) && Requested(db, expected) && Notes(db.settlements, n) && n > 0
    ensures var c := Note(n - 1, REVERTED);
            && ReconcileTx(db, c, now).Ok? && Row(db, c, now).intentId == Some(0) && c.identity.amount == 1
            && Existing(db, c.id).Some? && Share(Existing(db, c.id), 0, Creditable) == 1
            && Share(Some(Row(db, c, now)), 0, Creditable) == 0
  {
    var c, rows := Note(n - 1, REVERTED), db.settlements;
    hide RebuildTx, InsertEvent, PutRow, Keyed;
    assert rows[n - 1].seen.id == c.id && rows[n - 1] in rows;
    assert forall k | 0 <= k < n - 1 :: rows[k].seen.id != c.id;
    assert FindRow(rows, c.id) == Some(n - 1);
    assert Row(db, c, now).seen.chainStatus == REVERTED && !Creditable(Row(db, c, now));
  }

  /** The loss of one unit of value from `n`, with the event it calls for alone, if any. */
  ghost predicate LostOne(db: Db, after: Db, expected: nat, n: nat, now: nat) {
    && 0 in db.projections && db.projections[0].received == n && (Paid(db.projections[0]) <==> n >= expected)
    && (db.projections[0].status == PARTIAL <==> 0 < n < expected)
    && 0 in after.projections && after.projections[0].received == n - 1
    && (after.projections[0].status == PARTIAL <==> 0 < n - 1 < expected)
    && (after.projections[0].status == EXPIRED <==> n == 1 && now >= EXPIRY)
    && (after.projections[0].status == OPEN <==> n == 1 && now < EXPIRY)
    && exists kind :: CalledFor(kind, expected, n, n - 1, now >= EXPIRY) && Appends(db.outbox, after.outbox, kind)
  }

  /** One event of this kind, or none. */
  ghost predicate Appends(log: seq<Event>, after: seq<Event>, kind: Option<EventType>) {
    match kind
    case None => after == log
    case Some(k) =>
      |after| == |log| + 1 && after[..|log|] == log && after[|log|].kind == k && after[|log|].intentId == 0
  }

  lemma OnlyAnnounced(db: Db, log: seq<Event>, next: Projection, now: nat, id: SettlementId, kind: Option<EventType>)
    requires 0 in db.intents && 0 in db.projections && Existing(db, id).Some? && db.intents[0].id == 0
    requires log == db.outbox + Observation(db, 0, id, now) + Announcement(db, 0, next, now, id, kind)
    ensures Appends(db.outbox, log, kind)
  {
  }

  lemma IsReconciled(db: Db, c: Candidate, now: nat)
    requires Inv(db) && Keyed(db) && c.identity.amount > 0 && ReconcileTx(db, c, now).Ok?
    ensures Reconciled(db, c, now)
  {
  }

  lemma RequestedTerms(db: Db, expected: nat)
    requires Requested(db, expected)
    ensures 0 in db.intents && db.intents[0].id == 0 && db.intents[0].expected == expected
            && db.intents[0].expiresAt == EXPIRY
  {
  }

  lemma NoteGoes(db: Db, expected: nat, n: nat, now: nat)
    requires Collected(db, expected, n) && n > 0
    ensures Keyed(db) && ReconcileTx(db, Note(n - 1, REVERTED), now).Ok?
    ensures LostOne(db, ReconcileTx(db, Note(n - 1, REVERTED), now).value, expected, n, now)
  {
    hide *;
    var c := Note(n - 1, REVERTED);
    CollectedHas(db, expected, n);
    LostRow(db, expected, n, now);
    RequestedTerms(db, expected);
    var after := ReconcileTx(db, c, now).value;
    IsReconciled(db, c, now);
    CreditIsReceived(db, c, 0, now);
    NoteAnnounces(db, c, 0, now);
    StatusFollowsAmounts(db, 0);
    StatusFollowsAmounts(after, 0);
    var kind := PartialIsAnnouncedIff(db, c, 0, now);
    OnlyAnnounced(db, after.outbox, after.projections[0], now, c.id, kind);
    IsLoss(db, after, expected, n, now, kind);
  }

  lemma IsLoss(db: Db, after: Db, expected: nat, n: nat, now: nat, kind: Option<EventType>)
    requires 0 in db.projections && 0 in after.projections && n > 0
    requires db.projections[0].received == n && after.projections[0].received == n - 1
    requires (Paid(db.projections[0]) <==> n >= expected) && (db.projections[0].status == PARTIAL <==> 0 < n < expected)
    requires after.projections[0].status == PARTIAL <==> 0 < n - 1 < expected
    requires after.projections[0].status == EXPIRED <==> n == 1 && now >= EXPIRY
    requires after.projections[0].status in {OPEN, EXPIRED} <==> n == 1
    requires CalledFor(kind, expected, n, n - 1, now >= EXPIRY) && Appends(db.outbox, after.outbox, kind)
    ensures LostOne(db, after, expected, n, now)
  {
  }

  /** A request, then its notes. */
  function Coming(expected: nat, n: nat): seq<Step> {
    if n == 0 then [ClientCreates(0, 0, expected, EXPIRY, Draw(0, 0, 0, 0), 0)]
    else Coming(expected, n - 1) + [Scanned(Note(n - 1, FINALIZED), 1)]
  }

  lemma RequestIsCollected(config: Config, expected: nat)
    requires config.Valid() && expected > 0
    ensures Collected(EndToEnd.Run(config, Coming(expected, 0)).server, expected, 0)
  {
    hide *;
    FirstStep(config, expected);
    FirstTables(expected);
    NoNotes();
    EndToEnd.ServerIsOk(config, Coming(expected, 0));
    StillCollected(Created(expected), expected, 0);
  }

  function Created(expected: nat): Db {
    CommitCreation(EMPTY, Request(ClientKey(0), 0, expected, EXPIRY, 0), Draw(0, 0, 0, 0)).0
  }

  lemma FirstStep(config: Config, expected: nat)
    requires config.Valid()
    ensures EndToEnd.Run(config, Coming(expected, 0)).server == Created(expected)
  {
    hide CommitCreation;
    assert Coming(expected, 0)[..0] == [];
    assert EndToEnd.Run(config, []) == INIT;
  }

  lemma FirstTables(expected: nat)
    requires expected > 0
    ensures var db := Created(expected);
            && Requested(db, expected) && db.settlements == [] && 0 in db.projections && db.projections[0].received == 0
  {
  }

  lemma NoNotes()
    ensures Notes([], 0)
  {
  }

  lemma {:induction false} NotesAreCollected(config: Config, expected: nat, n: nat)
    requires config.Valid() && expected > 0
    ensures Collected(EndToEnd.Run(config, Coming(expected, n)).server, expected, n)
  {
    hide *;
    if n == 0 {
      RequestIsCollected(config, expected);
    } else {
      NotesAreCollected(config, expected, n - 1);
      var before := Coming(expected, n - 1);
      ComingStep(expected, n);
      EndToEnd.RunOneMore(config, before, Scanned(Note(n - 1, FINALIZED), 1));
      NoteComes(EndToEnd.Run(config, before).server, expected, n - 1, 1);
      EndToEnd.ScanStep(EndToEnd.Run(config, before), config, Note(n - 1, FINALIZED), 1);
    }
  }

  lemma ComingStep(expected: nat, n: nat)
    requires n > 0
    ensures Coming(expected, n) == Coming(expected, n - 1) + [Scanned(Note(n - 1, FINALIZED), 1)]
    ensures Note(n - 1, FINALIZED).identity.amount == 1 == Note(n - 1, REVERTED).identity.amount
  {
  }

  /** Every case is reached: for any expected amount, any number of notes credited, and any time at which the last of
      them is lost. */
  lemma LossIsReached(config: Config, expected: nat, n: nat, now: nat)
    requires config.Valid() && expected > 0 && n > 0
    ensures LostOne(EndToEnd.Run(config, Coming(expected, n)).server,
                    EndToEnd.Run(config, Coming(expected, n) + [Scanned(Note(n - 1, REVERTED), now)]).server,
                    expected, n, now)
  {
    hide *;
    NotesAreCollected(config, expected, n);
    ComingStep(expected, n);
    var before := Coming(expected, n);
    EndToEnd.RunOneMore(config, before, Scanned(Note(n - 1, REVERTED), now));
    NoteGoes(EndToEnd.Run(config, before).server, expected, n, now);
    EndToEnd.ScanStep(EndToEnd.Run(config, before), config, Note(n - 1, REVERTED), now);
  }

  /** The change of status, and the only event with it. */
  ghost predicate Falls(db: Db, after: Db, wasPaid: bool, status: IntentStatus, kind: Option<EventType>) {
    && 0 in db.projections && 0 in after.projections
    && Paid(db.projections[0]) == wasPaid && (!wasPaid ==> db.projections[0].status == PARTIAL)
    && after.projections[0].status == status && Appends(db.outbox, after.outbox, kind)
  }

  lemma LossFalls(db: Db, after: Db, expected: nat, n: nat, now: nat)
    requires LostOne(db, after, expected, n, now) && 0 < n <= expected
    ensures n == expected > 1 ==> Falls(db, after, true, PARTIAL, Some(PaymentReverted))
    ensures n == expected == 1 && now >= EXPIRY ==> Falls(db, after, true, EXPIRED, Some(PaymentReverted))
    ensures n == 1 < expected && now < EXPIRY ==> Falls(db, after, false, OPEN, None)
    ensures n == 1 < expected && now >= EXPIRY ==> Falls(db, after, false, EXPIRED, Some(PaymentExpired))
  {
  }

  lemma LossFallsInRun(config: Config, expected: nat, n: nat, now: nat)
    requires config.Valid() && 0 < n <= expected
    ensures var db := EndToEnd.Run(config, Coming(expected, n)).server;
            var after := EndToEnd.Run(config, Coming(expected, n) + [Scanned(Note(n - 1, REVERTED), now)]).server;
            && (n == expected > 1 ==> Falls(db, after, true, PARTIAL, Some(PaymentReverted)))
            && (n == expected == 1 && now >= EXPIRY ==> Falls(db, after, true, EXPIRED, Some(PaymentReverted)))
            && (n == 1 < expected && now < EXPIRY ==> Falls(db, after, false, OPEN, None))
            && (n == 1 < expected && now >= EXPIRY ==> Falls(db, after, false, EXPIRED, Some(PaymentExpired)))
  {
    hide *;
    LossIsReached(config, expected, n, now);
    LossFalls(EndToEnd.Run(config, Coming(expected, n)).server,
              EndToEnd.Run(config, Coming(expected, n) + [Scanned(Note(n - 1, REVERTED), now)]).server,
              expected, n, now);
  }

  /** A change of the partial amount that only a reversal announces. */
  lemma PaidFallsToPartial(config: Config)
    requires config.Valid()
    ensures Falls(EndToEnd.Run(config, Coming(2, 2)).server,
                  EndToEnd.Run(config, Coming(2, 2) + [Scanned(Note(1, REVERTED), 2)]).server,
                  true, PARTIAL, Some(PaymentReverted))
  {
    hide *;
    LossFallsInRun(config, 2, 2, 2);
  }

  /** A change of the partial amount that nothing announces. */
  lemma PartialFallsToOpen(config: Config)
    requires config.Valid()
    ensures Falls(EndToEnd.Run(config, Coming(2, 1)).server,
                  EndToEnd.Run(config, Coming(2, 1) + [Scanned(Note(0, REVERTED), 2)]).server, false, OPEN, None)
  {
    hide *;
    LossFallsInRun(config, 2, 1, 2);
    BeforeExpiry();
  }

  /** A transition to EXPIRED that only a reversal announces. */
  lemma PaidFallsToExpired(config: Config)
    requires config.Valid()
    ensures Falls(EndToEnd.Run(config, Coming(1, 1)).server,
                  EndToEnd.Run(config, Coming(1, 1) + [Scanned(Note(0, REVERTED), EXPIRY)]).server,
                  true, EXPIRED, Some(PaymentReverted))
  {
    hide *;
    LossFallsInRun(config, 1, 1, EXPIRY);
  }

  lemma BeforeExpiry()
    ensures 2 < EXPIRY
  {
  }
}
