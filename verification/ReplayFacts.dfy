/** Repeated scans: a note that is reported as it is stored changes nothing but when it was last seen. */
module ReplayFacts {
  import opened Domain
  import opened Results
  import opened Sums
  import opened ProjectionModel
  import opened CrossingFacts
  import opened Database
  import opened Reconciliation
  import opened ServerInvariant
  import opened ServerSteps
  import opened ServerFacts
  import opened ScanModel
  import opened ScanFacts

  /** The rows agree in everything a projection looks at. */
  predicate AlikeRow(a: Settlement, b: Settlement) {
    && a.matchStatus == b.matchStatus && a.intentId == b.intentId && a.seen.identity == b.seen.identity
    && a.seen.blockNumber == b.seen.blockNumber && a.seen.blockTimestamp == b.seen.blockTimestamp
    && a.seen.chainStatus == b.seen.chainStatus && a.seen.poiStatus == b.seen.poiStatus
  }

  ghost predicate Alike(s: seq<Settlement>, t: seq<Settlement>) {
    |s| == |t| && forall k | 0 <= k < |s| :: AlikeRow(s[k], t[k])
  }

  lemma {:induction false} FilterAlike(s: seq<Settlement>, t: seq<Settlement>, p: Settlement -> bool)
    requires Alike(s, t) && forall a, b | AlikeRow(a, b) :: p(a) == p(b)
    ensures Alike(Filter(s, p), Filter(t, p))
  {
    if s != [] {
      FilterAlike(s[1..], t[1..], p);
      assert AlikeRow(s[0], t[0]);
    }
  }

  lemma BeforeAlike(a: Settlement, b: Settlement, x: Settlement, y: Settlement)
    requires AlikeRow(a, b) && AlikeRow(x, y)
    ensures Before(a, x) == Before(b, y)
  {
  }

  lemma ConsAlike(a: Settlement, b: Settlement, s: seq<Settlement>, t: seq<Settlement>)
    requires AlikeRow(a, b) && Alike(s, t)
    ensures Alike([a] + s, [b] + t)
  {
    hide AlikeRow;
  }

  lemma {:induction false} InsertAlike(a: Settlement, b: Settlement, s: seq<Settlement>, t: seq<Settlement>)
    requires AlikeRow(a, b) && Alike(s, t)
    ensures Alike(Insert(a, s), Insert(b, t))
  {
    hide Before, AlikeRow;
    if s != [] {
      assert AlikeRow(s[0], t[0]);
      BeforeAlike(s[0], t[0], a, b);
      if Before(s[0], a) {
        assert Alike(s[1..], t[1..]);
        hide Alike;
        InsertAlike(a, b, s[1..], t[1..]);
        ConsAlike(s[0], t[0], Insert(a, s[1..]), Insert(b, t[1..]));
      } else {
        hide Alike;
        ConsAlike(a, b, s, t);
      }
    }
  }

  lemma {:induction false} OrderedAlike(s: seq<Settlement>, t: seq<Settlement>)
    requires Alike(s, t)
    ensures Alike(Ordered(s), Ordered(t))
  {
    if s != [] {
      OrderedAlike(s[1..], t[1..]);
      InsertAlike(s[0], t[0], Ordered(s[1..]), Ordered(t[1..]));
    }
  }

  lemma {:induction false} SumAlike(s: seq<Settlement>, t: seq<Settlement>, p: Settlement -> bool)
    requires Alike(s, t) && forall a, b | AlikeRow(a, b) :: p(a) == p(b)
    ensures SumIf(s, p) == SumIf(t, p)
  {
    if s != [] {
      SumAlike(s[1..], t[1..], p);
      assert AlikeRow(s[0], t[0]);
    }
  }

  lemma {:induction false} CrossingAlike(
    s: seq<Settlement>, t: seq<Settlement>, expected: nat, cumulative: nat, fallback: nat)
    requires Alike(s, t)
    ensures Crossing(s, expected, cumulative, fallback) == Crossing(t, expected, cumulative, fallback)
  {
    if s != [] {
      assert AlikeRow(s[0], t[0]);
      CrossingAlike(s[1..], t[1..], expected, cumulative + s[0].Amount(), fallback);
    }
  }

  /** Alike accounts give the same projection. */
  lemma DeriveAlike(intent: Intent, s: seq<Settlement>, t: seq<Settlement>, previous: Projection, now: nat)
    requires Alike(s, t)
    ensures Derive(intent, s, previous, now) == Derive(intent, t, previous, now)
  {
    FilterAlike(s, t, Creditable);
    SumAlike(s, t, Creditable);
    SumAlike(s, t, Pending);
    OrderedAlike(Filter(s, Creditable), Filter(t, Creditable));
    CrossingAlike(Ordered(Filter(s, Creditable)), Ordered(Filter(t, Creditable)), intent.expected, 0, now);
  }

  lemma ListedAlike(s: seq<Settlement>, t: seq<Settlement>, i: IntentId)
    requires Alike(s, t)
    ensures Alike(Listed(s, i), Listed(t, i))
  {
    FilterAlike(s, t, ForIntent(i));
    OrderedAlike(Filter(s, ForIntent(i)), Filter(t, ForIntent(i)));
  }

  // ---- The clock --------------------------------------------------------------------------------

  /** A request without value follows the clock. */
  predicate ClockMoves(intent: Intent, p: Projection, now: nat) {
    p.received == 0 && p.status != if now >= intent.expiresAt then EXPIRED else OPEN
  }

  /** Deriving again from the same settlements changes the status of an empty request at its expiry, and nothing
      else, ever. */
  lemma DeriveAgain(intent: Intent, p: Projection, account: seq<Settlement>, now: nat)
    requires Agrees(intent, p, account)
    ensures var next := Derive(intent, account, p, now);
            && next.received == p.received && next.pending == p.pending && next.overpayment == p.overpayment
            && (next == p <==> !ClockMoves(intent, p, now))
            && (next != p ==>
                  && next.revision == p.revision + 1
                  && next.status == if now >= intent.expiresAt then EXPIRED else OPEN)
  {
    var creditable := Filter(account, Creditable);
    if p.received >= intent.expected {
      SumFilter(account, Creditable, Any, Creditable);
      SumIfPermutation(creditable, Ordered(creditable), Any);
      FallbackUnused(Ordered(creditable), intent.expected, 0, now, 0);
      FallbackUnused(Ordered(creditable), intent.expected, 0, now, intent.expiresAt);
    }
  }

  // ---- One repeated note ------------------------------------------------------------------------

  /** The stored row, and the note reported about it now. */
  ghost predicate Repeats(db: Db, r: Settlement, c: Candidate, now: nat) {
    && Existing(db, c.id) == Some(r) && c.identity == r.seen.identity && r.Amount() > 0
    && AlikeRow(r, Row(db, c, now))
  }

  lemma RowFor(db: Db, r: Settlement)
    requires Inv(db) && Existing(db, r.seen.id) == Some(r) && r.intentId.Some?
    ensures r.intentId.value in db.intents && r.intentId.value in db.projections
  {
    hide LogOk, AgreesBut;
    assert RowOk(db, r);
  }

  /** For a known note the transaction is the upsert and the rebuild. */
  lemma KnownNote(db: Db, r: Settlement, c: Candidate, now: nat)
    requires Keyed(db) && Existing(db, c.id) == Some(r) && c.identity == r.seen.identity
    requires var i := Row(db, c, now).intentId; i.Some? ==> i.value in db.intents && i.value in db.projections
    ensures var i, stored := Row(db, c, now).intentId, Stored(db, c, now);
            ReconcileTx(db, c, now) == if i.None? then Ok(stored) else Ok(RebuildTx(stored, i.value, now, Some(c.id)))
  {
    hide RowOf, PutRow, RebuildTx, InsertEvent, FindIntentByReference;
  }

  lemma StoredAlike(db: Db, r: Settlement, c: Candidate, now: nat)
    requires Repeats(db, r, c, now)
    ensures Alike(db.settlements, Stored(db, c, now).settlements)
  {
    hide Row;
  }

  lemma RepeatStored(db: Db, r: Settlement, c: Candidate, now: nat)
    requires Inv(db) && Repeats(db, r, c, now)
    ensures ReconcileTx(db, c, now).Ok?
    ensures Alike(db.settlements, Stored(db, c, now).settlements)
    ensures r.intentId.None? ==> ReconcileTx(db, c, now) == Ok(Stored(db, c, now))
    ensures r.intentId.Some? ==>
              var stored, i := Stored(db, c, now), r.intentId.value;
              && i in stored.intents && i in stored.projections && InvBut(stored, i)
              && ReconcileTx(db, c, now) == Ok(RebuildTx(stored, i, now, Some(c.id)))
  {
    StoredAlike(db, r, c, now);
    if r.intentId.Some? { RowFor(db, r); }
    assert Accepted(db, c);
    StoredInvBut(db, c, now);
    hide InvBut, RowsOk, LogOk, AgreesBut, RebuildTx, RowOf, PutRow, ReconcileTx, Alike, Existing;
    KnownNote(db, r, c, now);
  }

  lemma EventAtExpiry(intent: Intent, p: Projection, next: Projection, now: nat)
    requires p.received == 0 ==> p.status in {OPEN, EXPIRED}
    requires next == p <==> !ClockMoves(intent, p, now)
    requires next.received == p.received
    requires next != p ==> next.status == if now >= intent.expiresAt then EXPIRED else OPEN
    ensures TransitionEvent(p, next).None? <==> !(p.received == 0 && p.status == OPEN && now >= intent.expiresAt)
  {
  }

  /** Rebuilding from an account like the one the projection was derived from. */
  lemma RebuildAlike(stored: Db, account: seq<Settlement>, i: IntentId, now: nat, settlement: Option<SettlementId>)
    requires InvBut(stored, i) && i in stored.projections
    requires Alike(account, Listed(stored.settlements, i)) && Agrees(stored.intents[i], stored.projections[i], account)
    ensures var intent, p, after := stored.intents[i], stored.projections[i], RebuildTx(stored, i, now, settlement);
            && i in after.projections && after.projections == stored.projections[i := after.projections[i]]
            && after.projections[i].received == p.received
            && after.projections[i].pending == p.pending
            && after.projections[i].overpayment == p.overpayment
            && (after.projections[i] == p <==> !ClockMoves(intent, p, now))
            && (after.outbox == stored.outbox <==> !(p.status == OPEN && now >= intent.expiresAt))
  {
    var intent, p := stored.intents[i], stored.projections[i];
    RebuildDerives(stored, i, now, settlement);
    RebuildRecords(stored, i, now, settlement);
    DeriveAlike(intent, account, Listed(stored.settlements, i), p, now);
    DeriveAgain(intent, p, account, now);
    AgreedStatus(intent, p, account);
    hide InvBut, RebuildTx, Derive, Agrees, Listed, Alike;
    EventAtExpiry(intent, p, Derive(intent, account, p, now), now);
    hide TransitionEvent, ClockMoves;
  }

  /** Reporting a stored note again can only do what the clock does to an empty request: no amount changes, the
      projections change exactly if the request crosses its expiry, and an event, `payment.expired`, is emitted
      exactly if an open request does. */
  lemma RepeatedNoteIsQuiet(db: Db, r: Settlement, c: Candidate, now: nat)
    requires Inv(db) && Repeats(db, r, c, now) && r.intentId.Some? && r.intentId.value in db.intents
    ensures ReconcileTx(db, c, now).Ok?
    ensures var i, after := r.intentId.value, ReconcileTx(db, c, now).value;
            && i in db.projections && i in after.projections
            && after.projections == db.projections[i := after.projections[i]]
            && after.projections[i].received == db.projections[i].received
            && after.projections[i].pending == db.projections[i].pending
            && after.projections[i].overpayment == db.projections[i].overpayment
            && (after.projections[i] == db.projections[i] <==> !ClockMoves(db.intents[i], db.projections[i], now))
            && (after.outbox == db.outbox <==> !(db.projections[i].status == OPEN && now >= db.intents[i].expiresAt))
  {
    var i, stored := r.intentId.value, Stored(db, c, now);
    RepeatStored(db, r, c, now);
    assert Agrees(db.intents[i], db.projections[i], Listed(db.settlements, i));
    hide Inv, InvBut, RebuildTx, ReconcileTx, Row, PutRow, Repeats, Agrees, Alike, Listed, ClockMoves;
    ListedAlike(db.settlements, stored.settlements, i);
    RebuildAlike(stored, Listed(db.settlements, i), i, now, Some(c.id));
  }

  /** A note reported exactly as stored, while its reference still leads where it led. */
  lemma StoredNoteRepeats(db: Db, r: Settlement, now: nat)
    requires Inv(db) && r in db.settlements && Row(db, r.seen, now).intentId == r.intentId
    requires Row(db, r.seen, now).matchStatus == r.matchStatus
    ensures Repeats(db, r, r.seen, now)
  {
    ExistingIsMembership(db, r);
    assert RowOk(db, r);
  }

  /** A credited note that has been spent stays credited, whether or not the wallet can still show its proof data,
      and the request it pays for is left alone. */
  lemma SpentStaysCredited(db: Db, r: Settlement, anyValid: bool, now: nat)
    requires Inv(db) && r in db.settlements && Creditable(r) && r.intentId.Some? && r.intentId.value in db.intents
    ensures var c := r.seen.(bucket := Spent, poiStatus := PoiOfBucket(Spent, anyValid));
            && ReconcileTx(db, c, now).Ok?
            && var i, after := r.intentId.value, ReconcileTx(db, c, now).value;
               && Existing(after, c.id).Some? && Creditable(Existing(after, c.id).value)
               && i in db.projections && i in after.projections
               && after.projections[i].received == db.projections[i].received
               && (after.projections[i] == db.projections[i] <==> !ClockMoves(db.intents[i], db.projections[i], now))
  {
    var c := r.seen.(bucket := Spent, poiStatus := PoiOfBucket(Spent, anyValid));
    SpentRepeats(db, r, anyValid, now);
    assert Accepted(db, c) && AlikeRow(r, Row(db, c, now)) by { NoteIsAccepted(db, r, c, now); }
    RepeatedNoteIsQuiet(db, r, c, now);
    StoredIsFound(db, c, now);
    hide Inv, Existing, Row, ReconcileTx, Repeats, ClockMoves;
  }

  lemma StoredIsFound(db: Db, c: Candidate, now: nat)
    requires Inv(db) && Accepted(db, c) && ReconcileTx(db, c, now).Ok?
    ensures Existing(ReconcileTx(db, c, now).value, c.id) == Some(Row(db, c, now))
  {
    ReconcileEffect(db, c, now);
    hide ReconcileTx, Row, LogOk, AgreesBut;
    ExistingAfterPut(db, ReconcileTx(db, c, now).value, Row(db, c, now), c.id);
  }

  lemma MatchedIntent(db: Db, r: Settlement)
    requires Inv(db) && r in db.settlements && r.intentId.Some?
    ensures var i := r.intentId.value;
            && i in db.intents && FindIntentByReference(db, r.seen.identity.reference) == Some(db.intents[i])
            && db.intents[i].id == i
            && db.intents[i].chainId == r.seen.identity.chainId && db.intents[i].token == r.seen.identity.token
    ensures r.Amount() > 0
  {
    hide LogOk, AgreesBut;
    assert RowOk(db, r);
  }

  lemma SpentRow(intent: Intent, r: Settlement, anyValid: bool, now: nat)
    requires Creditable(r) && r.intentId == Some(intent.id)
    requires intent.chainId == r.seen.identity.chainId && intent.token == r.seen.identity.token
    ensures AlikeRow(r, RowOf(r.seen.(bucket := Spent, poiStatus := PoiOfBucket(Spent, anyValid)),
                              Some(intent), Some(r), now))
  {
  }

  lemma SpentRepeats(db: Db, r: Settlement, anyValid: bool, now: nat)
    requires Inv(db) && r in db.settlements && Creditable(r) && r.intentId.Some?
    ensures Repeats(db, r, r.seen.(bucket := Spent, poiStatus := PoiOfBucket(Spent, anyValid)), now)
  {
    MatchedIntent(db, r);
    assert Existing(db, r.seen.id) == Some(r) by { ExistingIsMembership(db, r); }
    hide Inv, FindIntentByReference, Existing, RowOf, AlikeRow;
    SpentRow(db.intents[r.intentId.value], r, anyValid, now);
  }

  // ---- A repeated scan --------------------------------------------------------------------------

  /** Same notes and matches in the same places; projections, events and intents unchanged. */
  ghost predicate Unmoved(db: Db, after: Db) {
    && Inv(after) && after.intents == db.intents && after.byReference == db.byReference
    && after.projections == db.projections && after.outbox == db.outbox
    && |after.settlements| == |db.settlements|
    && forall k | 0 <= k < |db.settlements| ::
         && after.settlements[k].seen == db.settlements[k].seen
         && after.settlements[k].intentId == db.settlements[k].intentId
         && after.settlements[k].matchStatus == db.settlements[k].matchStatus
  }

  /** A stored note whose reference still leads where it led. */
  ghost predicate IsReplay(db: Db, c: Candidate, now: nat) {
    exists k | 0 <= k < |db.settlements| ::
      && db.settlements[k].seen == c
      && Row(db, c, now).intentId == db.settlements[k].intentId
      && Row(db, c, now).matchStatus == db.settlements[k].matchStatus
  }

  ghost predicate Replays(db: Db, batch: seq<Candidate>, now: nat) { forall c <- batch :: IsReplay(db, c, now) }

  ghost predicate ClockStill(db: Db, now: nat) {
    forall i <- db.intents :: i in db.projections && !ClockMoves(db.intents[i], db.projections[i], now)
  }

  lemma ReplayStep(db: Db, before: Db, k: nat, now: nat)
    requires Inv(db) && Unmoved(db, before) && ClockStill(db, now) && k < |db.settlements|
    requires var c := db.settlements[k].seen;
             Row(db, c, now).intentId == db.settlements[k].intentId
                 && Row(db, c, now).matchStatus == db.settlements[k].matchStatus
    ensures var c := db.settlements[k].seen;
            ReconcileTx(before, c, now).Ok? && Unmoved(db, ReconcileTx(before, c, now).value)
  {
    var c, r := db.settlements[k].seen, before.settlements[k];
    RowOnlyNeedsIntents(db, before, c, now);
    hide Row, RowsOk, LogOk, AgreesBut, ReconcileTx, RebuildTx, Repeats, Alike, PutRow, ClockMoves;
    assert r in before.settlements && r.seen == c && ClockStill(before, now);
    StoredNoteRepeats(before, r, now);
    hide ClockStill, Unmoved;
    NoteIsAccepted(before, r, c, now);
    ReplayRow(before, k, now);
    RepeatStored(before, r, c, now);
    ReconcileEffect(before, c, now);
    if r.intentId.Some? {
      RowFor(before, r);
      ReplayFor(before, r, c, now, r.intentId.value);
    }
    hide Inv;
    UnmovedStep(db, before, ReconcileTx(before, c, now).value, k, Row(before, c, now));
  }

  lemma UnmovedStep(db: Db, before: Db, after: Db, k: nat, row: Settlement)
    requires Unmoved(db, before) && Inv(after) && k < |before.settlements|
    requires after.intents == before.intents && after.byReference == before.byReference
    requires after.projections == before.projections && after.outbox == before.outbox
    requires after.settlements == before.settlements[k := row]
    requires row.seen == before.settlements[k].seen
    requires row.intentId == before.settlements[k].intentId && row.matchStatus == before.settlements[k].matchStatus
    ensures Unmoved(db, after)
  {
    hide Inv;
  }

  lemma ReplayFor(db: Db, r: Settlement, c: Candidate, now: nat, i: IntentId)
    requires Inv(db) && ClockStill(db, now) && Repeats(db, r, c, now) && r.intentId == Some(i) && i in db.intents
    ensures ReconcileTx(db, c, now).Ok?
    ensures var after := ReconcileTx(db, c, now).value;
            && i in db.projections && i in after.projections
            && after.projections == db.projections && after.outbox == db.outbox
  {
    hide Inv, Repeats, ReconcileTx, ClockStill, ClockMoves;
    RepeatedNoteIsQuiet(db, r, c, now);
    ClockStillFor(db, i, now);
    OpenIsEmpty(db, i);
    assert Keyed(db) by { InvIsKeyed(db); }
    var after := ReconcileTx(db, c, now).value;
    SameEntry(db.projections, after.projections, i);
  }

  lemma InvIsKeyed(db: Db)
    requires Inv(db)
    ensures Keyed(db)
  {
  }

  lemma OpenIsEmpty(db: Db, i: IntentId)
    requires Inv(db) && i in db.intents && i in db.projections
    ensures db.projections[i].status == OPEN ==> db.projections[i].received == 0
  {
    hide Inv;
    StatusFollowsAmounts(db, i);
  }

  lemma SameEntry(before: map<IntentId, Projection>, after: map<IntentId, Projection>, i: IntentId)
    requires i in before && i in after && after == before[i := after[i]] && after[i] == before[i]
    ensures after == before
  {
  }

  lemma RowOnlyNeedsIntents(a: Db, b: Db, c: Candidate, now: nat)
    requires a.intents == b.intents && a.byReference == b.byReference
    ensures Row(a, c, now).intentId == Row(b, c, now).intentId
            && Row(a, c, now).matchStatus == Row(b, c, now).matchStatus
  {
  }

  lemma NoteIsAccepted(db: Db, r: Settlement, c: Candidate, now: nat)
    requires Repeats(db, r, c, now)
    ensures Accepted(db, c) && AlikeRow(r, Row(db, c, now))
  {
    hide Row;
  }

  lemma ClockStillFor(db: Db, i: IntentId, now: nat)
    requires ClockStill(db, now) && i in db.intents
    ensures i in db.projections && !ClockMoves(db.intents[i], db.projections[i], now)
    ensures !(db.projections[i].received == 0 && db.projections[i].status == OPEN && now >= db.intents[i].expiresAt)
  {
  }

  lemma ReplayRow(db: Db, k: nat, now: nat)
    requires Inv(db) && k < |db.settlements|
    ensures var c := db.settlements[k].seen;
            && FindRow(db.settlements, c.id) == Some(k)
            && PutRow(db.settlements, FindRow(db.settlements, c.id), Row(db, c, now))
                 == db.settlements[k := Row(db, c, now)]
            && Row(db, c, now).seen == c
  {
    hide LogOk, AgreesBut;
    assert db.settlements[k] in db.settlements;
  }

  /** Scanning stored notes again, any of them, any number of times, while no request crosses its expiry, changes no
      projection and emits nothing. */
  lemma {:induction false} ReplayIsQuiet(db: Db, batch: seq<Candidate>, now: nat)
    requires Inv(db) && Replays(db, batch, now) && ClockStill(db, now)
    ensures BatchTx(db, batch, now).1.None? && Unmoved(db, BatchTx(db, batch, now).0)
    decreases |batch|
  {
    InvIsKeyed(db);
    if batch == [] {
      UnmovedAtFirst(db);
    } else {
      var last := |batch| - 1;
      ReplaysPrefix(db, batch, now);
      var k := ReplayedRow(db, batch, now);
      hide Inv, Row, ReconcileTx, ClockStill, Unmoved, Replays, Keyed;
      ReplayIsQuiet(db, batch[..last], now);
      ReplayStep(db, BatchTx(db, batch[..last], now).0, k, now);
    }
  }

  lemma UnmovedAtFirst(db: Db)
    requires Inv(db)
    ensures Unmoved(db, db)
  {
    hide Inv;
  }

  lemma ReplaysPrefix(db: Db, batch: seq<Candidate>, now: nat)
    requires Replays(db, batch, now) && batch != []
    ensures Replays(db, batch[..|batch| - 1], now)
  {
    hide IsReplay;
    assert forall c <- batch[..|batch| - 1] :: c in batch;
  }

  lemma ReplayedRow(db: Db, batch: seq<Candidate>, now: nat) returns (k: nat)
    requires Replays(db, batch, now) && batch != []
    ensures var c := batch[|batch| - 1];
            && k < |db.settlements| && db.settlements[k].seen == c
            && Row(db, c, now).intentId == db.settlements[k].intentId
            && Row(db, c, now).matchStatus == db.settlements[k].matchStatus
  {
    hide Row;
    var c := batch[|batch| - 1];
    assert c in batch && IsReplay(db, c, now);
    k :| 0 <= k < |db.settlements| && db.settlements[k].seen == c
      && Row(db, c, now).intentId == db.settlements[k].intentId
      && Row(db, c, now).matchStatus == db.settlements[k].matchStatus;
  }
}
