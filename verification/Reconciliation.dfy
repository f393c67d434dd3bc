/** src/reconciliation/service.ts. */
module Reconciliation {
  import opened Domain
  import opened Results
  import opened Sequences
  import opened ProjectionModel
  import opened Database

  predicate Paid(p: Projection) { p.status == PAID || p.status == PAID_LATE }

  function TransitionEvent(previous: Projection, next: Projection): Option<EventType> {
    if Paid(previous) && !Paid(next) then Some(PaymentReverted)
    else if !Paid(previous) && Paid(next) then Some(PaymentConfirmed)
    else if next.status == PARTIAL && next.received != previous.received then Some(PaymentPartial)
    else if previous.status != EXPIRED && next.status == EXPIRED then Some(PaymentExpired)
    else None
  }

  /** `createEvent` snapshots the projection it is given. */
  function EventOf(id: EventId, kind: EventType, intent: Intent, p: Projection, now: nat,
                   settlement: Option<SettlementId>): Event
  {
    Event(id, kind, now, intent.id, settlement, p.status, p.received, intent.expected, p.overpayment)
  }

  /** The rows every operation looks up by foreign key exist. */
  ghost predicate Keyed(db: Db) {
    && db.intents.Keys == db.projections.Keys
    && (forall i <- db.intents :: db.intents[i].id == i)
    && (forall r <- db.byReference :: db.byReference[r] in db.intents && db.intents[db.byReference[r]].reference == r)
    && (forall i <- db.intents :: db.intents[i].reference in db.byReference
         && db.byReference[db.intents[i].reference] == i)
    && |db.outbox| == |db.delivery|
  }

  // ---- One transaction --------------------------------------------------------------------------

  /** Stores a projection whose revision moved, with the event its change calls for. */
  function Commit(db: Db, i: IntentId, next: Projection, now: nat, settlement: Option<SettlementId>): (r: Db)
    requires i in db.intents && i in db.projections
    ensures r.intents == db.intents && r.byReference == db.byReference && r.settlements == db.settlements
    ensures r.projections == db.projections[i := next]
    ensures |db.outbox| == |db.delivery| ==> |r.outbox| == |r.delivery|
  {
    var updated := db.(projections := db.projections[i := next]);
    match TransitionEvent(db.projections[i], next)
    case None => updated
    case Some(kind) =>
      InsertEvent(updated,
        EventOf(TransitionId(kind, i, next.revision), kind, db.intents[i], next, now, settlement))
  }

  /** `rebuildProjection`. */
  function RebuildTx(db: Db, i: IntentId, now: nat, settlement: Option<SettlementId>): Db
    requires i in db.intents && i in db.projections
  {
    var next := Derive(db.intents[i], Listed(db.settlements, i), db.projections[i], now);
    if next.revision == db.projections[i].revision then db else Commit(db, i, next, now, settlement)
  }

  function MatchOf(c: Candidate, intent: Option<Intent>): MatchStatus {
    if intent.None? then UNMATCHED
    else if intent.value.chainId == c.identity.chainId && intent.value.token == c.identity.token then MATCHED
    else CONFLICT
  }

  /** A note that was spendable stays creditable when the wallet reports it spent without proof data. */
  function PoiOf(c: Candidate, existing: Option<Settlement>): PoiStatus {
    if c.bucket == Spent && c.poiStatus == UNKNOWN && existing.Some? && existing.value.seen.poiStatus == SPENDABLE
    then SPENDABLE
    else c.poiStatus
  }

  /** The row after the upsert, including the COALESCE on eligible_at. */
  function RowOf(c: Candidate, intent: Option<Intent>, existing: Option<Settlement>, now: nat): Settlement {
    var matched := MatchOf(c, intent);
    var poi := PoiOf(c, existing);
    var eligible := matched == MATCHED && c.chainStatus == FINALIZED && poi == SPENDABLE;
    Settlement(
      c.(poiStatus := poi),
      matched,
      if matched == MATCHED then Some(intent.value.id) else None,
      if existing.Some? then existing.value.firstSeenAt else now,
      now,
      if existing.Some? && existing.value.eligibleAt.Some? then existing.value.eligibleAt
      else if eligible then Some(now) else None)
  }

  function Existing(db: Db, id: SettlementId): Option<Settlement> {
    var at := FindRow(db.settlements, id);
    if at.Some? then Some(db.settlements[at.value]) else None
  }

  function ObservedEvent(db: Db, i: IntentId, id: SettlementId, now: nat): Event
    requires i in db.intents && i in db.projections
  {
    EventOf(ObservedId(id), SettlementObserved, db.intents[i], db.projections[i], now, Some(id))
  }

  /** `reconcile`: a thrown error rolls the transaction back. */
  function ReconcileTx(db: Db, c: Candidate, now: nat): Result<Db, Failure>
    requires Keyed(db)
  {
    var existing := Existing(db, c.id);
    if existing.Some? && existing.value.seen.identity != c.identity then Thrown(IdentityCollision)
    else if existing.None? && UtxoTaken(db.settlements, c.identity.Utxo()) then Thrown(UniqueViolation)
    else
      var row := RowOf(c, FindIntentByReference(db, c.identity.reference), existing, now);
      var stored := db.(settlements := PutRow(db.settlements, FindRow(db.settlements, c.id), row));
      if row.intentId.None? then Ok(stored)
      else
        var i := row.intentId.value;
        var observed := if existing.None? then InsertEvent(stored, ObservedEvent(stored, i, c.id, now)) else stored;
        Ok(RebuildTx(observed, i, now, Some(c.id)))
  }

  lemma KeyedAfterRebuild(db: Db, i: IntentId, now: nat, settlement: Option<SettlementId>)
    requires Keyed(db) && i in db.intents
    ensures Keyed(RebuildTx(db, i, now, settlement))
    ensures RebuildTx(db, i, now, settlement).intents == db.intents
  {
    assert db.projections.Keys + {i} == db.projections.Keys;
  }

  lemma RebuildTouchesOne(db: Db, i: IntentId, now: nat, settlement: Option<SettlementId>)
    requires Keyed(db) && i in db.intents
    ensures i in RebuildTx(db, i, now, settlement).projections
    ensures RebuildTx(db, i, now, settlement).projections
         == db.projections[i := RebuildTx(db, i, now, settlement).projections[i]]
  {
  }

  /** The listed intents whose revision differs between two states of the projections. */
  function Moved(
    before: map<IntentId, Projection>, after: map<IntentId, Projection>, listing: seq<IntentId>): set<IntentId>
    requires forall i <- listing :: i in before && i in after
  {
    set i | i in listing && after[i].revision != before[i].revision
  }

  lemma MovedStep(before: map<IntentId, Projection>, mid: map<IntentId, Projection>, listing: seq<IntentId>,
                  k: nat, p: Projection)
    requires forall i <- listing :: i in before && i in mid
    requires NoDuplicates(listing)
    requires k < |listing| && mid[listing[k]] == before[listing[k]]
    ensures |Moved(before, mid[listing[k] := p], listing[..k + 1])|
         == |Moved(before, mid, listing[..k])| + if p.revision != before[listing[k]].revision then 1 else 0
  {
    var i := listing[k];
    assert listing[..k + 1] == listing[..k] + [i];
    assert i !in listing[..k];
    assert Moved(before, mid[i := p], listing[..k + 1])
        == Moved(before, mid, listing[..k]) + if p.revision != before[i].revision then {i} else {};
  }

  /** `refreshExpirations` over the listing it obtained. The order of the listing among intents created
      in the same second is up to the database, so it is a parameter. */
  function RefreshTx(db: Db, listing: seq<IntentId>, now: nat): (r: Db)
    requires Keyed(db) && forall i <- listing :: i in db.intents
    ensures r.intents == db.intents && Keyed(r)
    decreases |listing|
  {
    if listing == [] then db
    else
      var last := |listing| - 1;
      var before := RefreshTx(db, listing[..last], now);
      KeyedAfterRebuild(before, listing[last], now, None);
      RebuildTx(before, listing[last], now, None)
  }

  const LISTING_LIMIT: nat := 100_000

  /** `createRecord` without an idempotency key: input checks, then the insert. */
  function CreateIntent(db: Db, intent: Intent, now: nat): Result<Db, Failure> {
    if intent.expected == 0 || intent.expiresAt <= now || intent.createdAt != now then Thrown(IntentInput)
    else InsertIntent(db, intent)
  }

  /** Where the loop of `refreshExpirations` stands after `k` intents. */
  ghost predicate Refreshing(start: Db, tables: Db, listing: seq<IntentId>, k: nat, changed: nat, now: nat) {
    && Keyed(start) && (forall i <- listing :: i in start.intents) && k <= |listing|
    && tables == RefreshTx(start, listing[..k], now)
    && (forall j | k <= j < |listing| :: tables.projections[listing[j]] == start.projections[listing[j]])
    && changed == |Moved(start.projections, tables.projections, listing[..k])|
  }

  lemma KeyedHere(db: Db, i: IntentId)
    requires Keyed(db) && i in db.intents
    ensures i in db.projections
  {
  }

  lemma RefreshingStep(start: Db, tables: Db, listing: seq<IntentId>, k: nat, changed: nat, now: nat)
    requires Refreshing(start, tables, listing, k, changed, now) && NoDuplicates(listing) && k < |listing|
    ensures Keyed(tables) && listing[k] in tables.intents && listing[k] in tables.projections
    ensures var next := RebuildTx(tables, listing[k], now, None);
            Refreshing(start, next, listing, k + 1,
              changed
                + if next.projections[listing[k]].revision != tables.projections[listing[k]].revision then 1 else 0,
              now)
  {
    hide Derive, Listed, RebuildTx, Moved;
    var i := listing[k];
    KeyedHere(tables, i);
    KeyedAfterRebuild(tables, i, now, None);
    RebuildTouchesOne(tables, i, now, None);
    MovedStep(start.projections, tables.projections, listing, k, RebuildTx(tables, i, now, None).projections[i]);
    assert listing[..k + 1][..k] == listing[..k];
  }

  // ---- The service ------------------------------------------------------------------------------

  class ReconciliationService {
    const database: PPOpsDatabase

    constructor (database: PPOpsDatabase)
      ensures this.database == database
    {
      this.database := database;
    }

    /** All reads that can fail come before the first write, so throwing leaves the tables alone. */
    method Reconcile(c: Candidate, now: nat) returns (r: Result<Settlement, Failure>)
      requires Keyed(database.State())
      modifies database
      ensures r.Ok? ==> ReconcileTx(old(database.State()), c, now) == Ok(database.State())
                        && r.value in database.settlements && r.value.seen.id == c.id
      ensures r.Thrown? ==> ReconcileTx(old(database.State()), c, now) == Thrown(r.error)
                            && database.State() == old(database.State())
    {
      var at := FindRow(database.settlements, c.id);
      var existing := if at.Some? then Some(database.settlements[at.value]) else None;
      if existing.Some? && existing.value.seen.identity != c.identity { return Thrown(IdentityCollision); }
      var intent := database.LookUpIntent(c.identity.reference);
      var row := RowOf(c, intent, existing, now);
      var failure := database.UpsertSettlement(row);
      if failure.Some? { return Thrown(failure.value); }
      assert database.settlements[if at.Some? then at.value else |database.settlements| - 1] == row;
      r := Ok(row);
      if row.intentId.None? { return; }
      var i := row.intentId.value;
      if existing.None? {
        var _ := database.RecordEvent(
          EventOf(ObservedId(c.id), SettlementObserved, database.intents[i], database.projections[i], now, Some(c.id)));
      }
      RebuildProjection(i, now, Some(c.id));
    }

    method RebuildProjection(i: IntentId, now: nat, settlement: Option<SettlementId>)
      requires i in database.intents && i in database.projections
      modifies database
      ensures database.State() == RebuildTx(old(database.State()), i, now, settlement)
    {
      var intent, previous := database.intents[i], database.projections[i];
      var next := Derive(intent, Listed(database.settlements, i), previous, now);
      if next.revision == previous.revision { return; }
      database.UpdateProjection(i, next);
      var kind := TransitionEvent(previous, next);
      if kind.Some? {
        var _ := database.RecordEvent(
          EventOf(TransitionId(kind.value, i, next.revision), kind.value, intent, next, now, settlement));
      }
    }

    /** `changed` counts the listed intents whose revision moved. */
    method RefreshExpirations(listing: seq<IntentId>, now: nat) returns (changed: nat)
      requires Keyed(database.State()) && forall i <- listing :: i in database.intents
      requires |listing| <= LISTING_LIMIT && NoDuplicates(listing)
      modifies database
      ensures database.State() == RefreshTx(old(database.State()), listing, now)
      ensures changed == |Moved(old(database.projections), database.projections, listing)|
    {
      changed := 0;
      for k := 0 to |listing|
        invariant Refreshing(old(database.State()), database.State(), listing, k, changed, now)
      {
        RefreshingStep(old(database.State()), database.State(), listing, k, changed, now);
        var before := database.projections[listing[k]].revision;
        RebuildProjection(listing[k], now, None);
        if database.projections[listing[k]].revision != before { changed := changed + 1; }
      }
      assert listing[..|listing|] == listing;
    }
  }
}
