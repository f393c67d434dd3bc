/** Theorems over every run of server, channel and merchant. */
module EndToEnd {
  import opened Domain
  import opened Results
  import opened Sequences
  import opened Sums
  import opened ProjectionModel
  import opened CrossingFacts
  import opened Database
  import opened Reconciliation
  import opened ServerInvariant
  import opened ServerSteps
  import opened ServerFacts
  import opened IdempotentCreation
  import opened DeliveryModel
  import opened MerchantModel
  import opened SystemModel
  import opened SystemInvariant
  import opened SystemSteps
  import opened SystemRuns

  lemma InitOk(config: Config)
    ensures SysInv(INIT, config) && Keyed(INIT.server)
  {
    forall i: IntentId ensures LogFor(EMPTY, i) {}
  }

  /** The state after a run. Steps that are not enabled leave it alone, so every list of steps is a run. */
  ghost function Run(config: Config, steps: seq<Step>): (s: System)
    requires config.Valid()
    ensures SysInv(s, config) && Keyed(s.server)
  {
    if steps == [] then
      InitOk(config);
      INIT
    else
      var before := Run(config, steps[..|steps| - 1]);
      StepKeeps(before, config, steps[|steps| - 1]);
      Next(before, config, steps[|steps| - 1])
  }

  lemma RunOneMore(config: Config, steps: seq<Step>, step: Step)
    requires config.Valid()
    ensures Run(config, steps + [step]) == Next(Run(config, steps), config, step)
  {
    assert (steps + [step])[..|steps|] == steps;
    hide Next;
  }

  lemma ServerIsOk(config: Config, steps: seq<Step>)
    requires config.Valid()
    ensures Inv(Run(config, steps).server)
  {
    hide Inv, Keyed;
  }

  lemma ScanStep(s: System, config: Config, c: Candidate, now: nat)
    requires Keyed(s.server) && c.identity.amount > 0 && ReconcileTx(s.server, c, now).Ok?
    ensures Next(s, config, Scanned(c, now)).server == ReconcileTx(s.server, c, now).value
  {
    hide ReconcileTx;
  }

  // ---- Where events come from -------------------------------------------------------------------

  /** The payload is what the committed tables say about its intent. */
  ghost predicate Reflects(db: Db, e: Event) {
    && e.intentId in db.projections
    && e.status == db.projections[e.intentId].status
    && e.received == db.projections[e.intentId].received
    && e.overpayment == db.projections[e.intentId].overpayment
  }

  ghost predicate NewReflect(db: Db, after: Db, scope: seq<IntentId>) {
    forall e <- after.outbox | e !in db.outbox && e.kind != SettlementObserved ::
      Reflects(after, e) && e.intentId in scope
  }

  lemma RebuildReflects(db: Db, i: IntentId, now: nat, settlement: Option<SettlementId>)
    requires InvBut(db, i)
    ensures NewReflect(db, RebuildTx(db, i, now, settlement), [i])
  {
    hide Listed, StatusOf, AgreesBut, RowsOk, LogOk;
    RebuildRecords(db, i, now, settlement);
  }

  lemma ObservedReflects(db: Db, i: IntentId, id: SettlementId, now: nat, after: Db)
    requires i in db.intents && i in db.projections
    requires NewReflect(InsertEvent(db, ObservedEvent(db, i, id, now)), after, [i])
    ensures NewReflect(db, after, [i])
  {
  }

  lemma ReconcileReflects(db: Db, c: Candidate, now: nat)
    requires Inv(db) && c.identity.amount > 0 && ReconcileTx(db, c, now).Ok?
    ensures Row(db, c, now).intentId.Some? ==>
              NewReflect(db, ReconcileTx(db, c, now).value, [Row(db, c, now).intentId.value])
    ensures Row(db, c, now).intentId.None? ==> ReconcileTx(db, c, now).value.outbox == db.outbox
  {
    var stored, row := Stored(db, c, now), Row(db, c, now);
    if row.intentId.Some? {
      StoredInvBut(db, c, now);
      var i := row.intentId.value;
      hide Inv, InvBut, RowOf, PutRow, RebuildTx, InsertEvent, NewReflect;
      if Existing(db, c.id).None? {
        StoredObserved(db, c, now);
        var observed := InsertEvent(stored, ObservedEvent(stored, i, c.id, now));
        RebuildReflects(observed, i, now, Some(c.id));
        ObservedReflects(stored, i, c.id, now, RebuildTx(observed, i, now, Some(c.id)));
        SameOutbox(db, stored, RebuildTx(observed, i, now, Some(c.id)), [i]);
      } else {
        RebuildReflects(stored, i, now, Some(c.id));
        SameOutbox(db, stored, RebuildTx(stored, i, now, Some(c.id)), [i]);
      }
    }
  }

  lemma SameOutbox(db: Db, stored: Db, after: Db, scope: seq<IntentId>)
    requires stored.outbox == db.outbox && NewReflect(stored, after, scope)
    ensures NewReflect(db, after, scope)
  {
  }

  lemma {:induction false} RefreshReflects(db: Db, listing: seq<IntentId>, now: nat)
    requires Inv(db) && Keyed(db) && NoDuplicates(listing) && forall i <- listing :: i in db.intents
    ensures NewReflect(db, RefreshTx(db, listing, now), listing)
    decreases |listing|
  {
    hide *;
    if listing == [] {
      NothingReflects(db, now);
    } else {
      PrefixIsListing(db, listing);
      RefreshReflects(db, listing[..|listing| - 1], now);
      RefreshReflectsStep(db, listing, now);
    }
  }

  lemma NothingReflects(db: Db, now: nat)
    requires Keyed(db)
    ensures NewReflect(db, RefreshTx(db, [], now), [])
  {
    hide Keyed;
  }

  lemma PrefixIsListing(db: Db, listing: seq<IntentId>)
    requires listing != [] && NoDuplicates(listing) && forall i <- listing :: i in db.intents
    ensures NoDuplicates(listing[..|listing| - 1]) && forall i <- listing[..|listing| - 1] :: i in db.intents
  {
  }

  lemma RefreshReflectsStep(db: Db, listing: seq<IntentId>, now: nat)
    requires Inv(db) && Keyed(db) && NoDuplicates(listing) && listing != [] && forall i <- listing :: i in db.intents
    requires NewReflect(db, RefreshTx(db, listing[..|listing| - 1], now), listing[..|listing| - 1])
    ensures NewReflect(db, RefreshTx(db, listing, now), listing)
  {
    hide Inv, InvBut, RebuildTx, RefreshTx, NewReflect, Keyed;
    var prefix, i := listing[..|listing| - 1], listing[|listing| - 1];
    assert i !in prefix && listing == prefix + [i] && forall j <- prefix :: j in db.intents;
    RefreshKeeps(db, prefix, now);
    RefreshUnfold(db, listing, now);
    hide NoDuplicates;
    RebuiltReflects(db, RefreshTx(db, prefix, now), prefix, i, now);
  }

  lemma RebuiltReflects(db: Db, before: Db, scope: seq<IntentId>, i: IntentId, now: nat)
    requires Inv(before) && Keyed(before) && i in before.intents && i !in scope && NewReflect(db, before, scope)
    ensures i in before.projections && NewReflect(db, RebuildTx(before, i, now, None), scope + [i])
  {
    hide Inv, InvBut, RebuildTx, NewReflect, Keyed;
    InvHasBut(before, i);
    RebuildReflects(before, i, now, None);
    RebuildTouchesOne(before, i, now, None);
    ReflectsCompose(db, before, RebuildTx(before, i, now, None), scope, i);
  }

  lemma RefreshUnfold(db: Db, listing: seq<IntentId>, now: nat)
    requires Keyed(db) && listing != [] && forall i <- listing :: i in db.intents
    ensures RefreshTx(db, listing, now)
         == RebuildTx(RefreshTx(db, listing[..|listing| - 1], now), listing[|listing| - 1], now, None)
  {
  }

  /** A later rebuild of another intent leaves earlier payloads true. */
  lemma ReflectsCompose(a: Db, b: Db, c: Db, scope: seq<IntentId>, i: IntentId)
    requires NewReflect(a, b, scope) && NewReflect(b, c, [i]) && i !in scope
    requires i in c.projections && c.projections == b.projections[i := c.projections[i]]
    ensures NewReflect(a, c, scope + [i])
  {
    forall e <- c.outbox | e !in a.outbox && e.kind != SettlementObserved
      ensures Reflects(c, e) && e.intentId in scope + [i]
    {
      if e in b.outbox { assert Reflects(b, e); }
    }
  }

  // ---- Along a run ------------------------------------------------------------------------------

  /** A transition event that a step adds is true of the state the step commits. */
  lemma StepReflects(s: System, config: Config, step: Step, e: Event)
    requires SysInv(s, config) && Keyed(s.server)
    requires e in Next(s, config, step).server.outbox && e !in s.server.outbox && e.kind != SettlementObserved
    ensures Reflects(Next(s, config, step).server, e)
  {
    SysInvHas(s, config);
    hide SysInv, Inv, Keyed, ReconcileTx, RefreshTx, Row;
    if step.Scanned? {
      ReconcileReflects(s.server, step.candidate, step.now);
    } else if step.Refreshed? {
      RefreshReflects(s.server, step.listing, step.now);
    } else {
      QuietStep(s, config, step);
    }
  }

  /** Only scans and refreshes write events. */
  lemma QuietStep(s: System, config: Config, step: Step)
    requires Keyed(s.server) && !step.Scanned? && !step.Refreshed?
    ensures Next(s, config, step).server.outbox == s.server.outbox
  {
    hide CommitCreation;
    match step
    case ClientCreates(n, reference, amount, expiresAt, draw, now) =>
      CreationIsSilent(s.server, Request(ClientKey(n), reference, amount, expiresAt, now), draw);
    case OrderIntentRequested(o, draw, now) =>
      if o in s.merchant.orders {
        CreationIsSilent(s.server, OrderRequest(o, s.merchant.orders[o], now), draw);
      }
    case _ =>
  }

  lemma CreationIsSilent(db: Db, q: Request, draw: Draw)
    ensures CommitCreation(db, q, draw).0.outbox == db.outbox && CommitCreation(db, q, draw).0.delivery == db.delivery
  {
  }

  /** Every transition event in the outbox was true of some earlier committed state. */
  lemma {:induction false} EventOrigin(config: Config, steps: seq<Step>, e: Event) returns (k: nat)
    requires config.Valid() && e in Run(config, steps).server.outbox && e.kind != SettlementObserved
    ensures k <= |steps| && Reflects(Run(config, steps[..k]).server, e) && e in Run(config, steps[..k]).server.outbox
    decreases |steps|
  {
    hide SysInv, Next, Keyed;
    assert steps != [];
    var last := |steps| - 1;
    if e in Run(config, steps[..last]).server.outbox {
      k := EventOrigin(config, steps[..last], e);
      assert steps[..last][..k] == steps[..k];
    } else {
      k := |steps|;
      assert steps[..k] == steps;
      StepReflects(Run(config, steps[..last]), config, steps[last], e);
    }
  }

  /** An order that was ever fulfilled, also one that has since been moved to review, was fulfilled once, and some
      earlier committed server state had its intent PAID: creditable settlements covered the price, and the one that
      completed it was stamped in time. */
  lemma FulfilledImpliesPaid(config: Config, steps: seq<Step>, o: OrderId) returns (k: nat, last: Settlement)
    requires config.Valid() && o in Run(config, steps).merchant.orders
    requires Run(config, steps).merchant.orders[o].fulfillments > 0
    ensures Run(config, steps).merchant.orders[o].fulfillments == 1
    ensures k <= |steps|
    ensures var order, db := Run(config, steps).merchant.orders[o], Run(config, steps[..k]).server;
            && order.intentId.Some? && order.intentId.value in db.intents
            && var i := order.intentId.value;
               && db.projections[i].status == PAID
               && SumIf(db.settlements, Of(i, Creditable)) >= order.amount == db.intents[i].expected
               && last in db.settlements && last.intentId == Some(i) && Creditable(last)
               && Cut(Filter(Listed(db.settlements, i), Creditable), order.amount, last)
               && last.Timestamp() <= db.intents[i].expiresAt == order.expiresAt
  {
    var s := Run(config, steps);
    var e := FulfilledReceipt(s, config, o);
    k := EventOrigin(config, steps, e);
    var db := Run(config, steps[..k]).server;
    SysInvHas(Run(config, steps[..k]), config);
    OrderTerms(s, config, o);
    RunForward(config, steps, k);
    hide Inv, SysInv, Run;
    StatusPaid(db, e);
    AmountsAreSums(db, e.intentId);
    last := PaidHasCrossing(db, e.intentId);
  }

  lemma StatusPaid(db: Db, e: Event)
    requires Inv(db) && Reflects(db, e) && e.status == PAID
    ensures e.intentId in db.intents && Paid(db.projections[e.intentId])
    ensures db.projections[e.intentId].received >= db.intents[e.intentId].expected
  {
    assert Keyed(db);
    hide Inv;
    StatusFollowsAmounts(db, e.intentId);
  }

  lemma FulfilledReceipt(s: System, config: Config, o: OrderId) returns (e: Event)
    requires SysInv(s, config) && o in s.merchant.orders && s.merchant.orders[o].fulfillments > 0
    ensures Justifies(e, s.merchant.orders[o]) && e in s.server.outbox && s.merchant.orders[o].fulfillments == 1
  {
    hide Inv;
    assert OrderOk(s.merchant, s.merchant.orders[o]);
    var id :| id in s.merchant.receipts && Justifies(s.merchant.receipts[id], s.merchant.orders[o]);
    e := s.merchant.receipts[id];
  }

  /** A linked order and its intent agree on price and expiry. */
  lemma OrderTerms(s: System, config: Config, o: OrderId)
    requires SysInv(s, config) && o in s.merchant.orders && s.merchant.orders[o].intentId.Some?
    ensures var order := s.merchant.orders[o];
            && order.intentId.value in s.server.intents
            && s.server.intents[order.intentId.value].expected == order.amount
            && s.server.intents[order.intentId.value].expiresAt == order.expiresAt
  {
    hide Inv;
    assert LinkOk(s.server, s.merchant, o);
  }

  // ---- What never changes -----------------------------------------------------------------------

  /** Intents are immutable, the outbox is append-only, and a delivered row is final. */
  ghost predicate ServerForward(db: Db, after: Db) {
    && (forall i <- db.intents :: i in after.intents && after.intents[i] == db.intents[i])
    && |db.outbox| <= |after.outbox| && after.outbox[..|db.outbox|] == db.outbox
    && |db.delivery| <= |after.delivery|
    && forall k | 0 <= k < |db.delivery| :: db.delivery[k].deliveredAt.Some? ==> after.delivery[k] == db.delivery[k]
  }

  /** Orders keep their price and their intent, and a fulfilment is not taken back. */
  ghost predicate OrdersForward(m: Merchant, after: Merchant) {
    forall o <- m.orders ::
      && o in after.orders && after.orders[o].amount == m.orders[o].amount
      && (m.orders[o].intentId.Some? ==> after.orders[o].intentId == m.orders[o].intentId)
      && m.orders[o].fulfillments <= after.orders[o].fulfillments
  }

  lemma PostsForward(db: Db, after: Db)
    requires Grows(db, after) && forall i <- db.intents :: i in after.intents && after.intents[i] == db.intents[i]
    ensures ServerForward(db, after)
  {
    assert forall k | 0 <= k < |db.delivery| :: after.delivery[k] == after.delivery[..|db.delivery|][k];
  }

  lemma CreationForward(db: Db, q: Request, draw: Draw)
    requires Inv(db)
    ensures ServerForward(db, CommitCreation(db, q, draw).0)
  {
    CreationIsSilent(db, q, draw);
    hide Inv, CommitCreation;
    CommitFrame(db, q, draw);
  }

  lemma UpdateForward(config: Config, db: Db, id: EventId, change: Delivery -> Delivery)
    requires |db.outbox| == |db.delivery|
    requires var k := IndexOf(db.outbox, id);
             k.Some? && db.delivery[k.value].deliveredAt.Some? ==> change(db.delivery[k.value]) == db.delivery[k.value]
    ensures ServerForward(db, Update(db, id, change))
  {
  }

  lemma SettleForward(s: System, config: Config, ok: bool)
    requires SysInv(s, config) && s.pass.Some? && s.pass.value.work != []
    ensures ServerForward(s.server, Settled(s.server, config, s.pass.value.work[0], ok, s.pass.value.now))
  {
    hide *;
    var t, now := s.pass.value.work[0], s.pass.value.now;
    PassFacts(s, config);
    WorkTail(s.server, s.pass.value.work);
    FirstOfWork(s.pass.value.work);
    SettledIsWithRow(s.server, config, t, ok, now);
    PendingRowForward(s.server, t, SettledRow(config, s.server.delivery[t.row], ok, now));
  }

  lemma PassFacts(s: System, config: Config)
    requires SysInv(s, config) && s.pass.Some?
    ensures LogOk(s.server) && WorkOk(s.server, s.pass.value.work)
  {
    hide RowsOk, AgreesBut, LinkedByKey, DeliveryOk;
  }

  lemma FirstOfWork(work: seq<Snapshot>)
    requires work != []
    ensures work[..1] == [work[0]]
  {
  }

  lemma PendingRowForward(db: Db, t: Snapshot, d: Delivery)
    requires WorkOk(db, [t])
    ensures t.row < |db.delivery| && ServerForward(db, WithRow(db, t.row, d))
  {
    assert t in [t];
  }

  lemma ForwardReflexive(db: Db)
    ensures ServerForward(db, db)
  {
  }

  lemma ServerStepForward(s: System, config: Config, step: Step)
    requires SysInv(s, config) && Keyed(s.server)
    ensures ServerForward(s.server, Next(s, config, step).server)
  {
    hide SysInv, Inv, Keyed, ReconcileTx, RefreshTx, CommitCreation, Settled, ServerForward, Update, Accept, Snapshots;
    SysInvHas(s, config);
    DeliveryShape(s, config);
    ForwardReflexive(s.server);
    match step
    case ClientCreates(n, reference, amount, expiresAt, draw, now) =>
      CreationForward(s.server, Request(ClientKey(n), reference, amount, expiresAt, now), draw);
    case Scanned(c, now) =>
      if c.identity.amount > 0 && ReconcileTx(s.server, c, now).Ok? {
        ReconcilePosts(s.server, c, now);
        PostsForward(s.server, ReconcileTx(s.server, c, now).value);
      }
    case Refreshed(listing, now) =>
      if ValidListing(s.server, listing) {
        RefreshPosts(s.server, listing, now);
        PostsForward(s.server, RefreshTx(s.server, listing, now));
      }
    case ReplayRequested(id, now) => UpdateForward(config, s.server, id, MarkReplayed(now));
    case OrderIntentRequested(o, draw, now) =>
      if o in s.merchant.orders {
        CreationForward(s.server, OrderRequest(o, s.merchant.orders[o], now), draw);
      }
    case Settles(ok) =>
      if s.pass.Some? && s.pass.value.work != [] { SettleForward(s, config, ok); }
    case _ =>
  }

  lemma DeliveryShape(s: System, config: Config)
    requires SysInv(s, config)
    ensures |s.server.outbox| == |s.server.delivery|
    ensures forall k | 0 <= k < |s.server.delivery| :: RowState(config, s.server.delivery[k])
  {
    hide Inv;
  }

  lemma ReserveForward(m: Merchant, o: OrderId, now: nat)
    ensures OrdersForward(m, m) && OrdersForward(m, Reserve(m, o, now))
  {
  }

  lemma AcceptForward(m: Merchant, e: Event)
    ensures OrdersForward(m, m) && (Accept(m, e).Ok? ==> OrdersForward(m, Accept(m, e).value.0))
  {
  }

  lemma LinkForward(db: Db, m: Merchant, o: OrderId)
    requires LinkedByKey(db, m) && OrderKey(o) in db.idempotency
    ensures var r := Link(m, o, db.idempotency[OrderKey(o)].intentId);
            r.Ok? && OrdersForward(m, r.value)
  {
    hide Link;
    LinkSucceeds(db, m, o);
  }

  lemma OrdersStepForward(s: System, config: Config, step: Step)
    requires SysInv(s, config) && Keyed(s.server)
    ensures OrdersForward(s.merchant, Next(s, config, step).merchant)
  {
    hide Inv, ServerStep, Settled, CommitCreation, Link, Accept, OrdersForward, Reserve, LinkedByKey;
    match step
    case OrderReserved(o, now) => ReserveForward(s.merchant, o, now);
    case OrderLinked(o) =>
      ReserveForward(s.merchant, o, 0);
      if OrderKey(o) in s.server.idempotency { LinkForward(s.server, s.merchant, o); }
    case Arrived(e) => AcceptForward(s.merchant, e);
    case _ => ReserveForward(s.merchant, 0, 0);
  }

  /** Whatever the steps, time goes forward for intents, events, deliveries and orders. */
  lemma {:induction false} RunForward(config: Config, steps: seq<Step>, k: nat)
    requires config.Valid() && k <= |steps|
    ensures ServerForward(Run(config, steps[..k]).server, Run(config, steps).server)
    ensures OrdersForward(Run(config, steps[..k]).merchant, Run(config, steps).merchant)
    decreases |steps|
  {
    hide SysInv, Next, Keyed;
    if k == |steps| {
      assert steps[..k] == steps;
    } else {
      var last := |steps| - 1;
      assert steps[..last][..k] == steps[..k];
      RunForward(config, steps[..last], k);
      var before := Run(config, steps[..last]);
      ServerStepForward(before, config, steps[last]);
      OrdersStepForward(before, config, steps[last]);
      ServerForwardTransitive(Run(config, steps[..k]).server, before.server, Run(config, steps).server);
    }
  }

  lemma ServerForwardTransitive(a: Db, b: Db, c: Db)
    requires ServerForward(a, b) && ServerForward(b, c)
    ensures ServerForward(a, c)
  {
    assert c.outbox[..|a.outbox|] == c.outbox[..|b.outbox|][..|a.outbox|];
  }

  /** The step after `k` fulfils `o`. */
  ghost predicate Fulfils(config: Config, steps: seq<Step>, k: nat, o: OrderId)
    requires config.Valid() && k < |steps|
  {
    var before, after := Run(config, steps[..k]).merchant, Run(config, steps[..k + 1]).merchant;
    o in before.orders && o in after.orders && before.orders[o].fulfillments < after.orders[o].fulfillments
  }

  /** However deliveries repeat, reorder and crash, at most one step of a run fulfils a given order. */
  lemma FulfilledAtMostOnce(config: Config, steps: seq<Step>, j: nat, k: nat, o: OrderId)
    requires config.Valid() && j < k < |steps| && Fulfils(config, steps, j, o)
    ensures !Fulfils(config, steps, k, o)
  {
    hide Next, SysInv;
    RunForward(config, steps[..k], j + 1);
    assert steps[..k][..j + 1] == steps[..j + 1];
    OrderBound(Run(config, steps[..k + 1]), config, o);
  }

  lemma OrderBound(s: System, config: Config, o: OrderId)
    requires SysInv(s, config)
    ensures o in s.merchant.orders ==> s.merchant.orders[o].fulfillments <= 1
  {
    hide Inv;
    if o in s.merchant.orders { assert OrderOk(s.merchant, s.merchant.orders[o]); }
  }

  /** No event is marked delivered that the merchant has not durably recorded; delivered, dead-lettered
      and pending exclude each other; and pending rows still have an attempt left. */
  lemma DeliveryIsAccountable(config: Config, steps: seq<Step>, k: nat)
    requires config.Valid() && k < |Run(config, steps).server.outbox|
    ensures var s := Run(config, steps);
            && k < |s.server.delivery|
            && RowState(config, s.server.delivery[k])
            && (s.server.delivery[k].deliveredAt.Some? ==>
                  && s.server.outbox[k].id in s.merchant.receipts
                  && s.merchant.receipts[s.server.outbox[k].id] == s.server.outbox[k])
  {
    var s := Run(config, steps);
    hide Next, Run, Inv;
    DeliveryShape(s, config);
    if s.server.delivery[k].deliveredAt.Some? {
      LogOfInv(s, config);
      SameIdSameEvent(s.server, s.merchant.receipts[s.server.outbox[k].id], s.server.outbox[k]);
    }
  }

  lemma LogOfInv(s: System, config: Config)
    requires SysInv(s, config)
    ensures LogOk(s.server)
  {
  }

  /** A webhook that has been sent is accepted once its order is linked, whatever happened before. */
  lemma SentWebhooksAreAccepted(config: Config, steps: seq<Step>, e: Event)
    requires config.Valid() && e in Run(config, steps).wire
    ensures var m := Run(config, steps).merchant;
            && (Accept(m, e).Ok? <==> e.id in m.receipts || e.intentId in m.byIntent)
            && (Accept(m, e).Thrown? ==> Accept(m, e).error == UnknownOrder)
  {
    var s := Run(config, steps);
    hide Next, Run, Inv, LinkedByKey, Accept;
    AcceptedIffLinked(s.server, s.merchant, e);
  }
}
