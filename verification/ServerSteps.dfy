/** Each transaction of the merchant server keeps `Inv`. */
module ServerSteps {
  import opened Domain
  import opened Results
  import opened Sums
  import opened ProjectionModel
  import opened CrossingFacts
  import opened Database
  import opened Reconciliation
  import opened ServerInvariant

  // ---- Upsert -----------------------------------------------------------------------------------

  function Row(db: Db, c: Candidate, now: nat): Settlement {
    RowOf(c, FindIntentByReference(db, c.identity.reference), Existing(db, c.id), now)
  }

  function Stored(db: Db, c: Candidate, now: nat): Db {
    db.(settlements := PutRow(db.settlements, FindRow(db.settlements, c.id), Row(db, c, now)))
  }

  ghost predicate Accepted(db: Db, c: Candidate) {
    && c.identity.amount > 0
    && (Existing(db, c.id).Some? ==> Existing(db, c.id).value.seen.identity == c.identity)
  }

  lemma RowIsOk(db: Db, c: Candidate, now: nat)
    requires Keyed(db) && Accepted(db, c)
    ensures RowOk(db, Row(db, c, now)) && Row(db, c, now).seen.id == c.id
  {
  }

  /** A stored match is never moved to another intent, nor lost. */
  lemma MatchIsStable(db: Db, c: Candidate, now: nat)
    requires Keyed(db) && RowsOk(db) && Accepted(db, c)
    ensures Existing(db, c.id).Some? && Existing(db, c.id).value.intentId.Some? ==>
              Row(db, c, now).intentId == Existing(db, c.id).value.intentId
  {
    if Existing(db, c.id).Some? { assert RowOk(db, Existing(db, c.id).value); }
  }

  lemma StoredRowsOk(db: Db, c: Candidate, now: nat)
    requires Keyed(db) && RowsOk(db) && Accepted(db, c)
    ensures RowsOk(Stored(db, c, now))
  {
    RowIsOk(db, c, now);
    var stored := Stored(db, c, now);
    forall row <- stored.settlements ensures RowOk(stored, row) {
      assert row == Row(db, c, now) || row in db.settlements;
      assert RowOk(db, row);
    }
  }

  lemma StoredLogOk(db: Db, c: Candidate, now: nat)
    requires LogOk(db)
    ensures LogOk(Stored(db, c, now))
  {
    var stored := Stored(db, c, now);
    forall e <- stored.outbox ensures EventOk(stored, e) {
      assert EventOk(db, e);
      if e.id.ObservedId? {
        FindRowUnchanged(db.settlements, FindRow(db.settlements, c.id), Row(db, c, now), e.id.settlement);
      }
    }
    forall i: IntentId ensures LogFor(stored, i) {
      assert LogFor(db, i);
    }
  }

  lemma StoredAgrees(db: Db, c: Candidate, now: nat)
    requires Inv(db) && Accepted(db, c)
    ensures var row := Row(db, c, now);
            AgreesBut(Stored(db, c, now), if row.intentId.Some? then {row.intentId.value} else {})
  {
    var row, at := Row(db, c, now), FindRow(db.settlements, c.id);
    MatchIsStable(db, c, now);
    forall j <- db.intents | row.intentId != Some(j)
      ensures Agrees(db.intents[j], db.projections[j], Listed(Stored(db, c, now).settlements, j))
    {
      ListedUntouched(db.settlements, at, row, j);
    }
  }

  // ---- Event log --------------------------------------------------------------------------------

  lemma NetAppend(log: seq<Event>, e: Event, i: IntentId)
    ensures Net(log + [e], i) == Net(log, i) + Weight(e, i)
  {
    assert (log + [e])[..|log|] == log;
  }

  lemma AlternatingAppend(log: seq<Event>, e: Event, i: IntentId)
    requires Alternating(log, i) && 0 <= Net(log, i) + Weight(e, i) <= 1
    ensures Alternating(log + [e], i)
  {
    NetAppend(log, e, i);
    forall k | 0 <= k <= |log| + 1 ensures 0 <= Net((log + [e])[..k], i) <= 1 {
      if k <= |log| {
        assert (log + [e])[..k] == log[..k];
      } else {
        assert (log + [e])[..k] == log + [e];
      }
    }
  }

  ghost predicate Fresh(db: Db, e: Event) { forall f <- db.outbox :: f.id != e.id }

  function PaidWeight(p: Projection): int { if Paid(p) then 1 else 0 }

  /** Only the projection of `i` changed, and not its revision downwards. */
  ghost predicate OnlyProjection(before: Db, db: Db, i: IntentId) {
    && db.outbox == before.outbox && db.intents == before.intents && db.settlements == before.settlements
    && i in db.intents && i in before.projections && i in db.projections
    && db.projections == before.projections[i := db.projections[i]]
    && before.projections[i].revision <= db.projections[i].revision
  }

  lemma EventsStayOk(before: Db, db: Db, i: IntentId, e: Event)
    requires LogOk(before) && OnlyProjection(before, db, i) && EventOk(db, e)
    ensures forall f <- before.outbox + [e] :: EventOk(db, f)
  {
    forall f <- before.outbox + [e] ensures EventOk(db, f) {
      if f in before.outbox { assert EventOk(before, f); }
    }
  }

  lemma LogForStays(before: Db, db: Db, i: IntentId, e: Event, j: IntentId)
    requires LogFor(before, j) && OnlyProjection(before, db, i) && e.intentId == i
    requires Weight(e, i) == PaidWeight(db.projections[i]) - PaidWeight(before.projections[i])
    ensures LogFor(db.(outbox := before.outbox + [e]), j)
  {
    NetAppend(before.outbox, e, j);
    AlternatingAppend(before.outbox, e, j);
  }

  /** Appending a fresh event whose kind matches the change of `i`'s projection. */
  lemma AppendKeepsLog(before: Db, db: Db, i: IntentId, e: Event)
    requires LogOk(before) && OnlyProjection(before, db, i) && e.intentId == i
    requires Fresh(before, e) && EventOk(db, e)
    requires Weight(e, i) == PaidWeight(db.projections[i]) - PaidWeight(before.projections[i])
    ensures LogOk(InsertEvent(db, e)) && InsertEvent(db, e).outbox == db.outbox + [e]
  {
    EventsStayOk(before, db, i, e);
    var after := InsertEvent(db, e);
    assert after.outbox == before.outbox + [e];
    assert forall f <- after.outbox :: EventOk(db, f) ==> EventOk(after, f);
    forall j: IntentId ensures LogFor(after, j) {
      LogForStays(before, db, i, e, j);
    }
  }

  lemma SilentKeepsLog(before: Db, db: Db, i: IntentId)
    requires LogOk(before) && OnlyProjection(before, db, i)
    requires Paid(db.projections[i]) == Paid(before.projections[i])
    ensures LogOk(db)
  {
    forall f <- db.outbox ensures EventOk(db, f) {
      assert EventOk(before, f);
    }
    forall j: IntentId ensures LogFor(db, j) {
      assert LogFor(before, j);
    }
  }

  lemma EventKeepsTables(db: Db, e: Event)
    ensures var after := InsertEvent(db, e);
            && after.intents == db.intents && after.byReference == db.byReference
            && after.projections == db.projections && after.settlements == db.settlements
  {
  }

  // ---- Rebuild ----------------------------------------------------------------------------------

  lemma {:induction false} FallbackUnused(ordered: seq<Settlement>, expected: nat, cumulative: nat, a: nat, b: nat)
    requires cumulative < expected <= cumulative + SumIf(ordered, Any)
    ensures Crossing(ordered, expected, cumulative, a) == Crossing(ordered, expected, cumulative, b)
  {
    var total := cumulative + ordered[0].Amount();
    if total < expected { FallbackUnused(ordered[1..], expected, total, a, b); }
  }

  /** The clock only tells OPEN from EXPIRED. */
  lemma StatusForgetsClock(intent: Intent, account: seq<Settlement>, now: nat)
    requires intent.expected > 0
    ensures var creditable, received := Filter(account, Creditable), SumIf(account, Creditable);
            var status := StatusOf(intent, creditable, received, now);
            || status == StatusOf(intent, creditable, received, 0)
            || status == StatusOf(intent, creditable, received, intent.expiresAt)
  {
    var creditable, received := Filter(account, Creditable), SumIf(account, Creditable);
    if received >= intent.expected {
      SumFilter(account, Creditable, Any, Creditable);
      SumIfPermutation(creditable, Ordered(creditable), Any);
      FallbackUnused(Ordered(creditable), intent.expected, 0, now, 0);
    }
  }

  lemma DerivedAgrees(intent: Intent, account: seq<Settlement>, previous: Projection, now: nat)
    requires intent.expected > 0
    ensures Agrees(intent, Derive(intent, account, previous, now), account)
  {
    StatusForgetsClock(intent, account, now);
  }

  lemma TransitionIsFresh(db: Db, i: IntentId, kind: EventType, e: Event)
    requires LogOk(db) && i in db.projections && e.id == TransitionId(kind, i, db.projections[i].revision + 1)
    ensures Fresh(db, e)
  {
    forall f <- db.outbox ensures f.id != e.id { assert EventOk(db, f); }
  }

  lemma CommitKeepsLog(db: Db, i: IntentId, next: Projection, now: nat, settlement: Option<SettlementId>)
    requires Keyed(db) && LogOk(db) && i in db.intents
    requires next.revision == db.projections[i].revision + 1
    requires Paid(next) ==> next.received >= db.intents[i].expected
    ensures LogOk(Commit(db, i, next, now, settlement))
    ensures var kind := TransitionEvent(db.projections[i], next);
            Commit(db, i, next, now, settlement).outbox == db.outbox +
              if kind.None? then []
              else [EventOf(TransitionId(kind.value, i, next.revision), kind.value, db.intents[i], next, now,
                            settlement)]
  {
    var updated := db.(projections := db.projections[i := next]);
    match TransitionEvent(db.projections[i], next)
    case None => SilentKeepsLog(db, updated, i);
    case Some(kind) =>
      var e := EventOf(TransitionId(kind, i, next.revision), kind, db.intents[i], next, now, settlement);
      TransitionIsFresh(db, i, kind, e);
      AppendKeepsLog(db, updated, i, e);
  }

  lemma RebuildAgrees(db: Db, i: IntentId, now: nat, settlement: Option<SettlementId>)
    requires InvBut(db, i)
    ensures Keyed(RebuildTx(db, i, now, settlement))
    ensures AgreesBut(RebuildTx(db, i, now, settlement), {})
  {
    KeyedAfterRebuild(db, i, now, settlement);
    RebuildTouchesOne(db, i, now, settlement);
    var after := RebuildTx(db, i, now, settlement);
    forall j <- after.intents ensures Agrees(after.intents[j], after.projections[j], Listed(after.settlements, j)) {
      if j == i {
        DerivedAgrees(db.intents[i], Listed(db.settlements, i), db.projections[i], now);
      }
    }
  }

  lemma RebuildKeepsLog(db: Db, i: IntentId, now: nat, settlement: Option<SettlementId>)
    requires InvBut(db, i)
    ensures LogOk(RebuildTx(db, i, now, settlement))
  {
    var next := Derive(db.intents[i], Listed(db.settlements, i), db.projections[i], now);
    if next.revision != db.projections[i].revision {
      CommitKeepsLog(db, i, next, now, settlement);
    }
  }

  lemma RebuildKeeps(db: Db, i: IntentId, now: nat, settlement: Option<SettlementId>)
    requires InvBut(db, i)
    ensures Inv(RebuildTx(db, i, now, settlement))
  {
    RebuildAgrees(db, i, now, settlement);
    RebuildKeepsLog(db, i, now, settlement);
    var after := RebuildTx(db, i, now, settlement);
    forall row <- after.settlements ensures RowOk(after, row) { assert RowOk(db, row); }
  }

  lemma InvHasBut(db: Db, i: IntentId)
    requires Inv(db) && i in db.intents
    ensures InvBut(db, i) && i in db.projections
  {
    assert Agrees(db.intents[i], db.projections[i], Listed(db.settlements, i));
  }

  // ---- The transactions -------------------------------------------------------------------------

  lemma ObservedKeeps(db: Db, i: IntentId, id: SettlementId, now: nat)
    requires InvBut(db, i) && FindRow(db.settlements, id).Some?
    requires Fresh(db, ObservedEvent(db, i, id, now))
    ensures InvBut(InsertEvent(db, ObservedEvent(db, i, id, now)), i)
    ensures InsertEvent(db, ObservedEvent(db, i, id, now)).outbox == db.outbox + [ObservedEvent(db, i, id, now)]
  {
    var after := InsertEvent(db, ObservedEvent(db, i, id, now));
    AppendKeepsLog(db, db, i, ObservedEvent(db, i, id, now));
    assert forall row <- db.settlements :: RowOk(db, row) ==> RowOk(after, row);
  }

  /** The note is new, so no `settlement.observed` event names it yet. */
  lemma ObservedIsFresh(db: Db, i: IntentId, id: SettlementId, now: nat, stored: Db)
    requires LogOk(db) && FindRow(db.settlements, id).None? && i in stored.intents && i in stored.projections
    requires stored.outbox == db.outbox
    ensures Fresh(stored, ObservedEvent(stored, i, id, now))
  {
    forall f <- db.outbox ensures f.id != ObservedId(id) { assert EventOk(db, f); }
  }

  lemma StoredInvBut(db: Db, c: Candidate, now: nat)
    requires Inv(db) && Accepted(db, c)
    ensures var stored, row := Stored(db, c, now), Row(db, c, now);
            if row.intentId.Some? then InvBut(stored, row.intentId.value) && row.intentId.value in stored.projections
            else Inv(stored)
  {
    StoredRowsOk(db, c, now);
    StoredLogOk(db, c, now);
    StoredAgrees(db, c, now);
    RowIsOk(db, c, now);
    var row := Row(db, c, now);
    if row.intentId.Some? {
      assert Agrees(db.intents[row.intentId.value], db.projections[row.intentId.value],
          Listed(db.settlements, row.intentId.value));
    }
  }

  /** Recording `settlement.observed` for a note seen for the first time. */
  lemma StoredObserved(db: Db, c: Candidate, now: nat)
    requires Inv(db) && Accepted(db, c) && Existing(db, c.id).None? && Row(db, c, now).intentId.Some?
    ensures var stored, i := Stored(db, c, now), Row(db, c, now).intentId.value;
            && i in stored.intents && i in stored.projections
            && InvBut(InsertEvent(stored, ObservedEvent(stored, i, c.id, now)), i)
            && InsertEvent(stored, ObservedEvent(stored, i, c.id, now)).outbox
               == db.outbox + [ObservedEvent(stored, i, c.id, now)]
  {
    var stored, i := Stored(db, c, now), Row(db, c, now).intentId.value;
    StoredInvBut(db, c, now);
    RowIsOk(db, c, now);
    ObservedIsFresh(db, i, c.id, now, stored);
    assert stored.settlements[|db.settlements|] == Row(db, c, now);
    ObservedKeeps(stored, i, c.id, now);
  }

  lemma ReconcileKeeps(db: Db, c: Candidate, now: nat)
    requires Inv(db) && c.identity.amount > 0 && ReconcileTx(db, c, now).Ok?
    ensures Inv(ReconcileTx(db, c, now).value)
  {
    hide Inv, InvBut, RowOf, PutRow, RebuildTx, InsertEvent;
    var stored, row := Stored(db, c, now), Row(db, c, now);
    StoredInvBut(db, c, now);
    if row.intentId.Some? {
      var i := row.intentId.value;
      if Existing(db, c.id).None? {
        StoredObserved(db, c, now);
        RebuildKeeps(InsertEvent(stored, ObservedEvent(stored, i, c.id, now)), i, now, Some(c.id));
      } else {
        RebuildKeeps(stored, i, now, Some(c.id));
      }
    }
  }

  lemma {:induction false} RefreshKeeps(db: Db, listing: seq<IntentId>, now: nat)
    requires Inv(db) && forall i <- listing :: i in db.intents
    ensures Inv(RefreshTx(db, listing, now))
    decreases |listing|
  {
    if listing != [] {
      var last := |listing| - 1;
      RefreshKeeps(db, listing[..last], now);
      var before := RefreshTx(db, listing[..last], now);
      assert Agrees(before.intents[listing[last]], before.projections[listing[last]],
                    Listed(before.settlements, listing[last]));
      RebuildKeeps(before, listing[last], now, None);
    }
  }

  lemma {:induction false} FilterNone(rows: seq<Settlement>, p: Settlement -> bool)
    requires forall r <- rows :: !p(r)
    ensures Filter(rows, p) == []
  {
    if rows != [] { FilterNone(rows[1..], p); }
  }

  /** No stored row and no event refers to an intent that does not exist yet. */
  lemma Unreferenced(db: Db, i: IntentId)
    requires Inv(db) && i !in db.intents
    ensures Listed(db.settlements, i) == []
    ensures forall e <- db.outbox :: e.intentId != i
  {
    forall row <- db.settlements ensures !ForIntent(i)(row) { assert RowOk(db, row); }
    FilterNone(db.settlements, ForIntent(i));
    forall e <- db.outbox ensures e.intentId != i { assert EventOk(db, e); }
  }

  /** `after` only adds an intent with an unpaid projection. */
  ghost predicate AddsIntent(db: Db, after: Db, i: IntentId) {
    && after.settlements == db.settlements && after.outbox == db.outbox && after.delivery == db.delivery
    && i !in db.intents && i !in db.projections && i in after.intents && i in after.projections
    && after.intents == db.intents[i := after.intents[i]]
    && after.projections == db.projections[i := after.projections[i]]
    && !Paid(after.projections[i])
  }

  lemma AddKeepsLog(db: Db, after: Db, i: IntentId)
    requires Inv(db) && AddsIntent(db, after, i)
    ensures LogOk(after)
  {
    forall e <- db.outbox ensures EventOk(after, e) { AddKeepsEvent(db, after, i, e); }
    forall j: IntentId ensures LogFor(after, j) { assert LogFor(db, j); }
  }

  lemma AddKeepsEvent(db: Db, after: Db, i: IntentId, e: Event)
    requires AddsIntent(db, after, i) && EventOk(db, e)
    ensures EventOk(after, e)
  {
  }

  lemma AddKeepsRows(db: Db, after: Db, i: IntentId)
    requires Inv(db) && AddsIntent(db, after, i)
    ensures RowsOk(after)
  {
    forall row <- db.settlements ensures RowOk(after, row) { assert RowOk(db, row); }
  }

  lemma AddKeepsAgreement(db: Db, after: Db, i: IntentId)
    requires Inv(db) && AddsIntent(db, after, i) && Keyed(after)
    requires Agrees(after.intents[i], after.projections[i], [])
    ensures AgreesBut(after, {})
  {
    Unreferenced(db, i);
    forall j <- after.intents ensures Agrees(after.intents[j], after.projections[j], Listed(after.settlements, j)) {
      if j != i { assert Agrees(db.intents[j], db.projections[j], Listed(db.settlements, j)); }
    }
  }

  lemma CreateIsAdd(db: Db, intent: Intent, now: nat)
    requires Keyed(db) && CreateIntent(db, intent, now).Ok?
    ensures var after := CreateIntent(db, intent, now).value;
            Keyed(after) && AddsIntent(db, after, intent.id)
            && Agrees(after.intents[intent.id], after.projections[intent.id], [])
  {
  }

  lemma CreateKeeps(db: Db, intent: Intent, now: nat)
    requires Inv(db) && CreateIntent(db, intent, now).Ok?
    ensures Inv(CreateIntent(db, intent, now).value)
  {
    var after := CreateIntent(db, intent, now).value;
    CreateIsAdd(db, intent, now);
    AddKeepsLog(db, after, intent.id);
    AddKeepsRows(db, after, intent.id);
    AddKeepsAgreement(db, after, intent.id);
  }
}
