/** Every step of the system keeps `SysInv`. */
module SystemSteps {
  import opened Domain
  import opened Results
  import opened Database
  import opened Reconciliation
  import opened ServerInvariant
  import opened ServerSteps
  import opened IdempotentCreation
  import opened DeliveryModel
  import opened MerchantModel
  import opened SystemModel
  import opened SystemInvariant

  // ---- The outbox only grows --------------------------------------------------------------------

  /** A new row is due at once. */
  predicate IsNewRow(d: Delivery, e: Event) { d == Delivery(0, e.occurredAt, None, None) }

  ghost predicate Grows(db: Db, after: Db) {
    && |db.outbox| == |db.delivery| <= |after.delivery| == |after.outbox|
    && after.outbox[..|db.outbox|] == db.outbox
    && after.delivery[..|db.delivery|] == db.delivery
    && forall k | |db.delivery| <= k < |after.delivery| :: IsNewRow(after.delivery[k], after.outbox[k])
  }

  /** A transaction of the reconciliation service. */
  ghost predicate Posts(db: Db, after: Db) {
    Grows(db, after) && after.intents == db.intents && after.idempotency == db.idempotency
  }

  lemma PostsTransitive(a: Db, b: Db, c: Db)
    requires Posts(a, b) && Posts(b, c)
    ensures Posts(a, c)
  {
    assert c.outbox[..|a.outbox|] == c.outbox[..|b.outbox|][..|a.outbox|];
    assert c.delivery[..|a.delivery|] == c.delivery[..|b.delivery|][..|a.delivery|];
    forall k | |a.delivery| <= k < |c.delivery| ensures IsNewRow(c.delivery[k], c.outbox[k]) {
      if k < |b.delivery| {
        assert c.delivery[k] == c.delivery[..|b.delivery|][k] && c.outbox[k] == c.outbox[..|b.outbox|][k];
      }
    }
  }

  lemma RebuildPosts(db: Db, i: IntentId, now: nat, settlement: Option<SettlementId>)
    requires Keyed(db) && i in db.intents
    ensures Posts(db, RebuildTx(db, i, now, settlement))
  {
    hide Listed, TransitionEvent;
  }

  lemma InsertPosts(db: Db, e: Event)
    requires Keyed(db)
    ensures Posts(db, InsertEvent(db, e)) && Keyed(InsertEvent(db, e))
  {
  }

  lemma StoredPosts(db: Db, c: Candidate, now: nat)
    requires Keyed(db)
    ensures Posts(db, Stored(db, c, now)) && Keyed(Stored(db, c, now))
    ensures Row(db, c, now).intentId.Some? ==> Row(db, c, now).intentId.value in db.intents
  {
  }

  lemma ReconcilePosts(db: Db, c: Candidate, now: nat)
    requires Keyed(db) && ReconcileTx(db, c, now).Ok?
    ensures Posts(db, ReconcileTx(db, c, now).value)
  {
    hide Keyed, Posts, RebuildTx, InsertEvent, PutRow, RowOf, EventOf;
    var stored, row := Stored(db, c, now), Row(db, c, now);
    StoredPosts(db, c, now);
    if row.intentId.Some? {
      var i := row.intentId.value;
      assert stored.intents == db.intents && stored.projections == db.projections;
      assert i in stored.intents && i in stored.projections by { StoredHas(db, i); }
      var e := ObservedEvent(stored, i, c.id, now);
      InsertPosts(stored, e);
      PostsTransitive(db, stored, InsertEvent(stored, e));
      var observed := if Existing(db, c.id).None? then InsertEvent(stored, e) else stored;
      EventKeepsTables(stored, e);
      RebuildPosts(observed, i, now, Some(c.id));
      PostsTransitive(db, observed, RebuildTx(observed, i, now, Some(c.id)));
    }
  }

  lemma StoredHas(db: Db, i: IntentId)
    requires Keyed(db) && i in db.intents
    ensures i in db.projections
  {
  }

  lemma {:induction false} RefreshPosts(db: Db, listing: seq<IntentId>, now: nat)
    requires Keyed(db) && forall i <- listing :: i in db.intents
    ensures Posts(db, RefreshTx(db, listing, now))
    decreases |listing|
  {
    if listing != [] {
      var last := |listing| - 1;
      RefreshPosts(db, listing[..last], now);
      var before := RefreshTx(db, listing[..last], now);
      RebuildPosts(before, listing[last], now, None);
      PostsTransitive(db, before, RebuildTx(before, listing[last], now, None));
    }
  }

  // ---- Frames of SysInv -------------------------------------------------------------------------

  /** Growth of the outbox leaves deliveries, receipts and running passes in order. */
  lemma GrowthKeepsChannel(s: System, config: Config, after: Db)
    requires config.Valid() && Grows(s.server, after)
    requires ReceiptsOk(s.server, s.merchant) && DeliveryOk(config, s.server, s.merchant) && ChannelOk(s)
    ensures ReceiptsOk(after, s.merchant) && DeliveryOk(config, after, s.merchant) && ChannelOk(s.(server := after))
  {
    var n := |s.server.outbox|;
    assert forall k | 0 <= k < n ::
        after.outbox[k] == after.outbox[..n][k] && after.delivery[k] == after.delivery[..n][k];
    assert forall e <- s.server.outbox :: e in after.outbox[..n];
    forall d <- after.delivery ensures RowState(config, d) {
      var k :| 0 <= k < |after.delivery| && after.delivery[k] == d;
      if k < n { assert d in s.server.delivery; }
    }
  }

  lemma PostsKeep(s: System, config: Config, after: Db)
    requires SysInv(s, config) && config.Valid() && Inv(after) && Posts(s.server, after)
    ensures SysInv(s.(server := after), config)
  {
    hide Inv, LinkedByKey;
    GrowthKeepsChannel(s, config, after);
    KeysFrame(s.server, after, s.merchant);
  }

  lemma KeysFrame(db: Db, after: Db, m: Merchant)
    requires LinkedByKey(db, m) && after.intents == db.intents && after.idempotency == db.idempotency
    ensures LinkedByKey(after, m)
  {
    forall o <- m.orders ensures LinkOk(after, m, o) { assert LinkOk(db, m, o); }
  }

  /** `Inv` does not look at delivery columns or at idempotency keys. */
  lemma InvFrame(db: Db, delivery: seq<Delivery>, keys: map<Key, Idempotency>)
    requires Inv(db) && |delivery| == |db.delivery|
    ensures Inv(db.(delivery := delivery, idempotency := keys))
  {
    var after := db.(delivery := delivery, idempotency := keys);
    forall row <- db.settlements ensures RowOk(after, row) { assert RowOk(db, row); }
    forall e <- db.outbox ensures EventOk(after, e) { assert EventOk(db, e); }
    forall i: IntentId ensures LogFor(after, i) { assert LogFor(db, i); }
    forall i <- after.intents ensures Agrees(after.intents[i], after.projections[i], Listed(after.settlements, i)) {
      assert Agrees(db.intents[i], db.projections[i], Listed(db.settlements, i));
    }
  }

  // ---- Creation ---------------------------------------------------------------------------------

  lemma CommitKeepsInv(db: Db, q: Request, draw: Draw)
    requires Inv(db)
    ensures Inv(CommitCreation(db, q, draw).0) && Grows(db, CommitCreation(db, q, draw).0)
  {
    if CommitCreation(db, q, draw).1.Created? {
      CreateKeeps(db, RecordOf(q, draw), q.now);
      var created := CreateIntent(db, RecordOf(q, draw), q.now).value;
      InvFrame(created, created.delivery, created.idempotency[q.key := Idempotency(q.Fp(), draw.id)]);
    }
  }

  lemma CommitKeepsKeys(db: Db, m: Merchant, q: Request, draw: Draw)
    requires LinkedByKey(db, m)
    requires q.key.OrderKey? ==>
               q.key.order in m.orders
               && q.Fp() == Fingerprint(q.key.order, m.orders[q.key.order].amount, m.orders[q.key.order].expiresAt)
    ensures LinkedByKey(CommitCreation(db, q, draw).0, m)
  {
    CommitFrame(db, q, draw);
    var after := CommitCreation(db, q, draw).0;
    forall o <- m.orders ensures LinkOk(after, m, o) { assert LinkOk(db, m, o); }
  }

  lemma CreationKeeps(s: System, config: Config, q: Request, draw: Draw)
    requires SysInv(s, config) && config.Valid()
    requires q.key.OrderKey? ==>
               q.key.order in s.merchant.orders
               && q == OrderRequest(q.key.order, s.merchant.orders[q.key.order], q.now)
    ensures SysInv(s.(server := CommitCreation(s.server, q, draw).0), config)
  {
    hide Inv, CommitCreation, LinkedByKey;
    CommitKeepsInv(s.server, q, draw);
    CommitKeepsKeys(s.server, s.merchant, q, draw);
    GrowthKeepsChannel(s, config, CommitCreation(s.server, q, draw).0);
  }

  // ---- Delivery ---------------------------------------------------------------------------------

  function WithRow(db: Db, row: nat, d: Delivery): Db
    requires row < |db.delivery|
  {
    db.(delivery := db.delivery[row := d])
  }

  lemma WithRowInv(db: Db, row: nat, d: Delivery)
    requires Inv(db) && row < |db.delivery|
    ensures Inv(WithRow(db, row, d))
  {
    InvFrame(db, db.delivery[row := d], db.idempotency);
  }

  lemma WithRowDelivery(config: Config, db: Db, m: Merchant, row: nat, d: Delivery)
    requires DeliveryOk(config, db, m) && row < |db.delivery|
    requires RowState(config, d) && (d.deliveredAt.Some? ==> db.outbox[row].id in m.receipts)
    ensures DeliveryOk(config, WithRow(db, row, d), m)
  {
    forall x <- db.delivery[row := d] ensures RowState(config, x) {
      assert x == d || x in db.delivery;
    }
  }

  lemma WithRowWork(db: Db, row: nat, d: Delivery, work: seq<Snapshot>)
    requires WorkOk(db, work) && row < |db.delivery| && forall t <- work :: t.row != row
    ensures WorkOk(WithRow(db, row, d), work)
  {
  }

  /** Replacing the delivery columns of a row that no running pass has still to settle. */
  lemma UpdateKeeps(s: System, config: Config, row: nat, d: Delivery, pass: Option<PassState>)
    requires SysInv(s, config) && row < |s.server.delivery| == |s.server.outbox|
    requires RowState(config, d) && (d.deliveredAt.Some? ==> s.server.outbox[row].id in s.merchant.receipts)
    requires pass.Some? ==> WorkOk(s.server, pass.value.work) && forall t <- pass.value.work :: t.row != row
    ensures SysInv(s.(server := WithRow(s.server, row, d), pass := pass), config)
  {
    hide Inv, LinkedByKey, DeliveryOk, WorkOk;
    WithRowInv(s.server, row, d);
    WithRowDelivery(config, s.server, s.merchant, row, d);
    KeysFrame(s.server, WithRow(s.server, row, d), s.merchant);
    if pass.Some? { WithRowWork(s.server, row, d, pass.value.work); }
  }

  lemma RowOfEvent(db: Db, row: nat)
    requires LogOk(db) && row < |db.outbox|
    ensures IndexOf(db.outbox, db.outbox[row].id) == Some(row)
  {
    hide LogFor, EventOk;
    var k := IndexOf(db.outbox, db.outbox[row].id);
    assert db.outbox[row] in db.outbox;
  }

  /** The update that settling the first record of a pass makes to its row. */
  function SettledRow(config: Config, d: Delivery, ok: bool, now: nat): Delivery {
    if ok then MarkDelivered(now)(d)
    else if d.attempts + 1 >= config.maxAttempts then MarkDeadLettered(now)(d)
    else MarkFailed(now + RetrySeconds(config, d.attempts))(d)
  }

  lemma SettledIsWithRow(db: Db, config: Config, t: Snapshot, ok: bool, now: nat)
    requires LogOk(db) && WorkOk(db, [t])
    ensures Settled(db, config, t, ok, now) == WithRow(db, t.row, SettledRow(config, db.delivery[t.row], ok, now))
  {
    RowOfEvent(db, t.row);
    assert t in [t];
  }

  lemma SettledRowState(config: Config, d: Delivery, ok: bool, now: nat)
    requires RowState(config, d) && IsPending(d)
    ensures RowState(config, SettledRow(config, d, ok, now))
    ensures SettledRow(config, d, ok, now).deliveredAt.Some? ==> ok
  {
  }

  lemma WorkTail(db: Db, work: seq<Snapshot>)
    requires WorkOk(db, work) && work != []
    ensures WorkOk(db, work[..1]) && WorkOk(db, work[1..]) && forall t <- work[1..] :: t.row != work[0].row
  {
  }

  lemma SettleKeeps(s: System, config: Config, ok: bool)
    requires SysInv(s, config) && config.Valid()
    requires s.pass.Some? && s.pass.value.work != [] && (ok ==> s.pass.value.work[0].event.id in s.answered)
    ensures var p := s.pass.value;
            SysInv(s.(server := Settled(s.server, config, p.work[0], ok, p.now),
                      pass := if |p.work| == 1 then None else Some(PassState(p.now, p.work[1..], false))), config)
  {
    hide RowState, LogOk, SettledRow, Settled, LinkedByKey;
    var p := s.pass.value;
    var t := p.work[0];
    WorkTail(s.server, p.work);
    assert p.work[..1] == [t];
    SettledIsWithRow(s.server, config, t, ok, p.now);
    SettledRowState(config, s.server.delivery[t.row], ok, p.now);
    UpdateKeeps(s, config, t.row, SettledRow(config, s.server.delivery[t.row], ok, p.now),
                if |p.work| == 1 then None else Some(PassState(p.now, p.work[1..], false)));
  }

  lemma ReplayKeeps(s: System, config: Config, id: EventId, now: nat)
    requires SysInv(s, config) && config.Valid()
    ensures SysInv(s.(server := Update(s.server, id, MarkReplayed(now))), config)
  {
    hide Inv, LinkedByKey;
    var k := IndexOf(s.server.outbox, id);
    if k.Some? {
      var d := s.server.delivery[k.value];
      assert RowState(config, d);
      if d.deadLetteredAt.Some? {
        UpdateKeeps(s, config, k.value, MarkReplayed(now)(d), s.pass);
      } else {
        assert s.server.delivery[k.value := d] == s.server.delivery;
      }
    }
  }
}
