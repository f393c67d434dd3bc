/** The tables of src/db/database.ts as one value, with the statements that the services issue. */
module Database {
  import opened Domain
  import opened Results
  import opened ProjectionModel

  type OrderId = nat

  /** Idempotency keys: the merchant derives one from each order, other clients choose their own. */
  datatype Key = OrderKey(order: OrderId) | ClientKey(n: nat)

  /** The fingerprint hashes exactly these parts of a creation request. */
  datatype Fingerprint = Fingerprint(externalReference: nat, amount: nat, expiresAt: nat)

  datatype Idempotency = Idempotency(fingerprint: Fingerprint, intentId: IntentId)

  /** The columns of outbox_events that delivery updates; the payload columns never change. */
  datatype Delivery = Delivery(
    attempts: nat, nextAttemptAt: nat, deliveredAt: Option<nat>, deadLetteredAt: Option<nat>)

  /** `byReference` is the UNIQUE index on payment_intents(reference). The settlements and outbox
      tables are kept in rowid order; `delivery[k]` belongs to the same row as `outbox[k]`. */
  datatype Db = Db(
    intents: map<IntentId, Intent>,
    byReference: map<Reference, IntentId>,
    projections: map<IntentId, Projection>,
    settlements: seq<Settlement>,
    outbox: seq<Event>,
    delivery: seq<Delivery>,
    idempotency: map<Key, Idempotency>)

  const EMPTY := Db(map[], map[], map[], [], [], [], map[])

  datatype Failure =
    | IdentityCollision | UniqueViolation | IntentInput | IdempotencyConflict

  // ---- settlements ------------------------------------------------------------------------------

  /** The rowid of the settlement with this id. */
  function FindRow(rows: seq<Settlement>, id: SettlementId): (r: Option<nat>)
    ensures r.Some? ==> r.value < |rows| && rows[r.value].seen.id == id
    ensures r.None? ==> forall row <- rows :: row.seen.id != id
  {
    if rows == [] then None
    else if rows[0].seen.id == id then Some(0)
    else match FindRow(rows[1..], id)
      case None => None
      case Some(k) => Some(k + 1)
  }

  predicate UtxoTaken(rows: seq<Settlement>, utxo: SettlementId) {
    exists row <- rows :: row.seen.identity.Utxo() == utxo
  }

  /** INSERT ... ON CONFLICT(id) DO UPDATE, once `FindRow` has been consulted. */
  function PutRow(rows: seq<Settlement>, at: Option<nat>, row: Settlement): seq<Settlement>
    requires at.Some? ==> at.value < |rows|
  {
    if at.Some? then rows[at.value := row] else rows + [row]
  }

  function ForIntent(i: IntentId): Settlement -> bool { (r: Settlement) => r.intentId == Some(i) }

  /** `listSettlementsForIntent`. */
  function Listed(rows: seq<Settlement>, i: IntentId): seq<Settlement> {
    Ordered(Filter(rows, ForIntent(i)))
  }

  // ---- intents ----------------------------------------------------------------------------------

  function FindIntentByReference(db: Db, reference: Option<Reference>): Option<Intent> {
    if reference.Some? && reference.value in db.byReference
       && db.byReference[reference.value] in db.intents
    then Some(db.intents[db.byReference[reference.value]])
    else None
  }

  /** `insertIntent`: the row and its OPEN projection. */
  function InsertIntent(db: Db, intent: Intent): Result<Db, Failure> {
    if intent.id in db.intents || intent.reference in db.byReference then Thrown(UniqueViolation)
    else Ok(db.(
      intents := db.intents[intent.id := intent],
      byReference := db.byReference[intent.reference := intent.id],
      projections := db.projections[intent.id := Projection(OPEN, 0, 0, 0, 0, intent.createdAt)]))
  }

  // ---- outbox -----------------------------------------------------------------------------------

  predicate HasEvent(outbox: seq<Event>, id: EventId) {
    exists e <- outbox :: e.id == id
  }

  /** INSERT OR IGNORE INTO outbox_events: the dedupe key decides the event id, both are unique. */
  function InsertEvent(db: Db, event: Event): Db {
    if HasEvent(db.outbox, event.id) then db
    else db.(
      outbox := db.outbox + [event],
      delivery := db.delivery + [Delivery(0, event.occurredAt, None, None)])
  }

  /** `PPOpsDatabase`: the tables are fields that the statements rewrite. */
  class PPOpsDatabase {
    var intents: map<IntentId, Intent>
    var byReference: map<Reference, IntentId>
    var projections: map<IntentId, Projection>
    var settlements: seq<Settlement>
    var outbox: seq<Event>
    var delivery: seq<Delivery>
    var idempotency: map<Key, Idempotency>

    ghost function State(): Db
      reads this
    {
      Db(intents, byReference, projections, settlements, outbox, delivery, idempotency)
    }

    constructor ()
      ensures State() == EMPTY
    {
      intents, byReference, projections := map[], map[], map[];
      settlements, outbox, delivery, idempotency := [], [], [], map[];
    }

    method LookUpIntent(reference: Option<Reference>) returns (intent: Option<Intent>)
      ensures intent == FindIntentByReference(State(), reference)
    {
      intent := None;
      if reference.Some? && reference.value in byReference && byReference[reference.value] in intents {
        intent := Some(intents[byReference[reference.value]]);
      }
    }

    method Insert(intent: Intent) returns (failure: Option<Failure>)
      modifies this
      ensures InsertIntent(old(State()), intent)
           == if failure.Some? then Thrown(failure.value) else Ok(State())
      ensures failure.Some? ==> State() == old(State())
    {
      if intent.id in intents || intent.reference in byReference { return Some(UniqueViolation); }
      intents := intents[intent.id := intent];
      byReference := byReference[intent.reference := intent.id];
      projections := projections[intent.id := Projection(OPEN, 0, 0, 0, 0, intent.createdAt)];
      failure := None;
    }

    method UpsertSettlement(row: Settlement) returns (failure: Option<Failure>)
      modifies `settlements
      ensures failure == if FindRow(old(settlements), row.seen.id).None?
                            && UtxoTaken(old(settlements), row.seen.identity.Utxo())
                         then Some(UniqueViolation) else None
      ensures settlements == if failure.Some? then old(settlements)
                             else PutRow(old(settlements), FindRow(old(settlements), row.seen.id), row)
    {
      var at := FindRow(settlements, row.seen.id);
      if at.None? && UtxoTaken(settlements, row.seen.identity.Utxo()) { return Some(UniqueViolation); }
      settlements := if at.Some? then settlements[at.value := row] else settlements + [row];
      failure := None;
    }

    method UpdateProjection(i: IntentId, projection: Projection)
      modifies `projections
      ensures projections == if i in old(projections) then old(projections)[i := projection] else old(projections)
    {
      if i in projections { projections := projections[i := projection]; }
    }

    method RecordEvent(event: Event) returns (changed: bool)
      modifies `outbox, `delivery
      ensures State() == InsertEvent(old(State()), event)
      ensures changed <==> !HasEvent(old(outbox), event.id)
    {
      changed := !HasEvent(outbox, event.id);
      if changed {
        outbox := outbox + [event];
        delivery := delivery + [Delivery(0, event.occurredAt, None, None)];
      }
    }
  }
}
