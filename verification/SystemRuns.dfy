/** Every run of the system keeps `SysInv`. */
module SystemRuns {
  import opened Domain
  import opened Results
  import opened Database
  import opened Reconciliation
  import opened ServerInvariant
  import opened ServerSteps
  import opened IdempotentCreation
  import opened DeliveryModel
  import opened MerchantModel
  import opened SystemModel
  import opened SystemInvariant
  import opened SystemSteps

  // ---- The shop ---------------------------------------------------------------------------------

  lemma ReserveKeeps(db: Db, m: Merchant, o: OrderId, now: nat)
    requires LinkedByKey(db, m) && OrdersOk(m)
    ensures LinkedByKey(db, Reserve(m, o, now)) && OrdersOk(Reserve(m, o, now))
  {
    var after := Reserve(m, o, now);
    forall p <- after.orders ensures LinkOk(db, after, p) && OrderOk(after, after.orders[p]) {
      if p in m.orders { assert LinkOk(db, m, p) && OrderOk(m, m.orders[p]); }
    }
  }

  /** Linking never throws, and never moves an order to another intent. */
  lemma LinkSucceeds(db: Db, m: Merchant, o: OrderId)
    requires LinkedByKey(db, m) && OrderKey(o) in db.idempotency
    ensures var i := db.idempotency[OrderKey(o)].intentId;
            && Link(m, o, i).Ok?
            && o in m.orders
            && (m.orders[o].intentId.Some? ==> m.orders[o].intentId == Some(i) && Link(m, o, i).value == m)
            && Link(m, o, i).value.orders == m.orders[o := m.orders[o].(intentId := Some(i))]
            && Link(m, o, i).value.byIntent == m.byIntent[i := o]
            && Link(m, o, i).value.receipts == m.receipts
  {
    assert LinkOk(db, m, o);
    var i := db.idempotency[OrderKey(o)].intentId;
    if i in m.byIntent { assert LinkOk(db, m, m.byIntent[i]); }
    if m.orders[o].intentId.Some? {
      assert (m.byIntent - {i})[i := o] == m.byIntent == m.byIntent[i := o];
      assert m.orders == m.orders[o := m.orders[o].(intentId := Some(i))];
    }
  }

  lemma LinkKeeps(db: Db, m: Merchant, o: OrderId)
    requires LinkedByKey(db, m) && OrdersOk(m) && OrderKey(o) in db.idempotency
    ensures var r := Link(m, o, db.idempotency[OrderKey(o)].intentId);
            r.Ok? && LinkedByKey(db, r.value) && OrdersOk(r.value) && r.value.receipts == m.receipts
  {
    LinkSucceeds(db, m, o);
    var i := db.idempotency[OrderKey(o)].intentId;
    if m.orders[o].intentId.None? {
      var after := Link(m, o, i).value;
      assert OrderOk(m, m.orders[o]);
      forall p <- after.orders ensures LinkOk(db, after, p) && OrderOk(after, after.orders[p]) {
        assert LinkOk(db, m, p) && OrderOk(m, m.orders[p]);
      }
    }
  }

  // ---- Arrivals ---------------------------------------------------------------------------------

  /** An event of a linked intent fits its order: same price, and a consistent confirmation. */
  lemma LinkedEventFits(db: Db, m: Merchant, e: Event)
    requires LinkedByKey(db, m) && EventOk(db, e) && e.intentId in m.byIntent
    ensures var o := OrderFor(m, e.intentId);
            o.Some? && m.orders[o.value].amount == e.expected && Consistent(m.orders[o.value], e)
  {
    assert LinkOk(db, m, m.byIntent[e.intentId]);
  }

  lemma InvEvent(db: Db, e: Event)
    requires Inv(db) && e in db.outbox
    ensures EventOk(db, e) && LogOk(db)
  {
  }

  lemma DuplicateIsAccepted(m: Merchant, e: Event)
    requires e.id in m.receipts && m.receipts[e.id] == e
    ensures Accept(m, e) == Ok((m, Duplicate))
  {
  }

  lemma SameIdSameEvent(db: Db, e: Event, f: Event)
    requires LogOk(db) && e in db.outbox && f in db.outbox && e.id == f.id
    ensures e == f
  {
  }

  /** An event of the outbox is answered with success exactly when its intent belongs to an order: no
      payload conflict, no amount mismatch and no inconsistent confirmation can occur. */
  lemma AcceptedIffLinked(db: Db, m: Merchant, e: Event)
    requires Inv(db) && LinkedByKey(db, m) && ReceiptsOk(db, m) && e in db.outbox
    ensures Accept(m, e).Ok? <==> e.id in m.receipts || e.intentId in m.byIntent
    ensures Accept(m, e).Thrown? ==> Accept(m, e).error == UnknownOrder
  {
    hide Inv, LinkedByKey, Consistent, Applied;
    InvEvent(db, e);
    if e.id in m.receipts {
      hide Accept;
      SameIdSameEvent(db, e, m.receipts[e.id]);
      DuplicateIsAccepted(m, e);
    } else if e.intentId in m.byIntent {
      LinkedEventFits(db, m, e);
    }
  }

  lemma AcceptKeepsOrders(m: Merchant, e: Event)
    requires OrdersOk(m) && Accept(m, e).Ok?
    requires forall i <- m.byIntent :: m.byIntent[i] in m.orders && m.orders[m.byIntent[i]].intentId == Some(i)
    ensures OrdersOk(Accept(m, e).value.0)
  {
    var after := Accept(m, e).value.0;
    forall o <- after.orders ensures OrderOk(after, after.orders[o]) {
      assert OrderOk(m, m.orders[o]);
      if m.orders[o].fulfillments == 1 {
        var id :| id in m.receipts && Justifies(m.receipts[id], m.orders[o]);
        assert Justifies(after.receipts[id], after.orders[o]);
      } else if after.orders[o].fulfillments == 1 {
        assert Justifies(after.receipts[e.id], after.orders[o]);
      }
    }
  }

  lemma AcceptKeepsLinks(db: Db, m: Merchant, e: Event)
    requires LinkedByKey(db, m) && Accept(m, e).Ok?
    ensures LinkedByKey(db, Accept(m, e).value.0)
  {
    var after := Accept(m, e).value.0;
    assert forall o <- after.orders :: o in m.orders && after.orders[o].intentId == m.orders[o].intentId
                                       && after.orders[o].amount == m.orders[o].amount
                                       && after.orders[o].expiresAt == m.orders[o].expiresAt;
    forall o <- after.orders ensures LinkOk(db, after, o) { assert LinkOk(db, m, o); }
  }

  lemma ArrivalKeeps(s: System, config: Config, e: Event)
    requires SysInv(s, config) && e in s.wire && Accept(s.merchant, e).Ok?
    ensures SysInv(s.(merchant := Accept(s.merchant, e).value.0, answered := s.answered + {e.id}), config)
  {
    hide Inv, OrderOk;
    assert forall i <- s.merchant.byIntent ::
      s.merchant.byIntent[i] in s.merchant.orders && s.merchant.orders[s.merchant.byIntent[i]].intentId == Some(i);
    AcceptKeepsOrders(s.merchant, e);
    AcceptKeepsLinks(s.server, s.merchant, e);
    hide LinkedByKey, OrdersOk;
  }

  // ---- All steps --------------------------------------------------------------------------------

  lemma SnapshotsOk(db: Db, now: nat)
    requires |db.outbox| == |db.delivery|
    ensures WorkOk(db, Snapshots(db, now))
  {
    var due := Due(db.outbox, db.delivery, now);
    assert forall t <- Snapshots(db, now) :: t in due;
  }

  lemma ServerStepKeeps(s: System, config: Config, step: Step)
    requires SysInv(s, config) && config.Valid() && Keyed(s.server)
    ensures SysInv(s.(server := ServerStep(s.server, config, step)), config)
  {
    hide SysInv, Inv;
    match step
    case ClientCreates(n, reference, amount, expiresAt, draw, now) =>
      CreationKeeps(s, config, Request(ClientKey(n), reference, amount, expiresAt, now), draw);
    case Scanned(c, now) =>
      if c.identity.amount > 0 && ReconcileTx(s.server, c, now).Ok? {
        SysInvHas(s, config);
        ReconcileKeeps(s.server, c, now);
        ReconcilePosts(s.server, c, now);
        PostsKeep(s, config, ReconcileTx(s.server, c, now).value);
      }
    case Refreshed(listing, now) =>
      if ValidListing(s.server, listing) {
        SysInvHas(s, config);
        RefreshKeeps(s.server, listing, now);
        RefreshPosts(s.server, listing, now);
        PostsKeep(s, config, RefreshTx(s.server, listing, now));
      }
    case ReplayRequested(id, now) =>
      ReplayKeeps(s, config, id, now);
    case _ =>
  }

  lemma SysInvHas(s: System, config: Config)
    requires SysInv(s, config)
    ensures Inv(s.server) && Keyed(s.server)
  {
  }

  lemma ShopStepKeeps(s: System, config: Config, step: Step)
    requires SysInv(s, config) && config.Valid() && Keyed(s.server)
    requires step.OrderReserved? || step.OrderIntentRequested? || step.OrderLinked?
    ensures SysInv(Next(s, config, step), config)
  {
    match step
    case OrderReserved(o, now) => OrderReservedKeeps(s, config, o, now);
    case OrderIntentRequested(o, draw, now) =>
      hide SysInv, CommitCreation;
      if o in s.merchant.orders {
        CreationKeeps(s, config, OrderRequest(o, s.merchant.orders[o], now), draw);
      }
    case OrderLinked(o) => OrderLinkedKeeps(s, config, o);
  }

  lemma OrderReservedKeeps(s: System, config: Config, o: OrderId, now: nat)
    requires SysInv(s, config)
    ensures SysInv(s.(merchant := Reserve(s.merchant, o, now)), config)
  {
    hide Inv, LinkedByKey, OrdersOk;
    ReserveKeeps(s.server, s.merchant, o, now);
  }

  lemma OrderLinkedKeeps(s: System, config: Config, o: OrderId)
    requires SysInv(s, config) && Keyed(s.server)
    ensures SysInv(Next(s, config, OrderLinked(o)), config)
  {
    hide Inv, LinkedByKey, OrdersOk, Link;
    if OrderKey(o) in s.server.idempotency { LinkKeeps(s.server, s.merchant, o); }
  }

  lemma PassStartedKeeps(s: System, config: Config, now: nat)
    requires SysInv(s, config) && |s.server.outbox| == |s.server.delivery|
    ensures SysInv(s.(pass := Some(PassState(now, Snapshots(s.server, now), false))), config)
  {
    hide Inv, LinkedByKey, OrdersOk, WorkOk, Snapshots, DeliveryOk;
    SnapshotsOk(s.server, now);
  }

  lemma PostedKeeps(s: System, config: Config)
    requires SysInv(s, config) && s.pass.Some? && s.pass.value.work != []
    ensures SysInv(s.(wire := s.wire + {s.pass.value.work[0].event},
                      pass := Some(s.pass.value.(posted := true))), config)
  {
    hide Inv, LinkedByKey, OrdersOk, DeliveryOk;
    assert s.pass.value.work[0] in s.pass.value.work;
  }

  lemma PassEndedKeeps(s: System, config: Config)
    requires SysInv(s, config)
    ensures SysInv(s.(pass := None), config)
  {
    hide Inv, LinkedByKey, OrdersOk, DeliveryOk;
  }

  lemma ChannelStepKeeps(s: System, config: Config, step: Step)
    requires SysInv(s, config) && config.Valid() && Keyed(s.server)
    requires step.PassStarted? || step.Posted? || step.Settles? || step.ServerCrashed? || step.Arrived?
    ensures SysInv(Next(s, config, step), config)
  {
    hide SysInv, Settled, Accept, Snapshots;
    match step
    case PassStarted(now) => PassStartedKeeps(s, config, now);
    case Posted =>
      if s.pass.Some? && s.pass.value.work != [] { PostedKeeps(s, config); }
    case Settles(ok) =>
      PassEndedKeeps(s, config);
      if s.pass.Some? && s.pass.value.work != [] && (ok ==> s.pass.value.work[0].event.id in s.answered) {
        SettleKeeps(s, config, ok);
      }
    case ServerCrashed => PassEndedKeeps(s, config);
    case Arrived(e) =>
      if e in s.wire && Accept(s.merchant, e).Ok? { ArrivalKeeps(s, config, e); }
  }

  lemma StepKeeps(s: System, config: Config, step: Step)
    requires SysInv(s, config) && config.Valid() && Keyed(s.server)
    ensures SysInv(Next(s, config, step), config) && Keyed(Next(s, config, step).server)
  {
    hide SysInv, ServerStep;
    match step
    case OrderReserved(_, _) => ShopStepKeeps(s, config, step);
    case OrderIntentRequested(_, _, _) => ShopStepKeeps(s, config, step);
    case OrderLinked(_) => ShopStepKeeps(s, config, step);
    case PassStarted(_) => ChannelStepKeeps(s, config, step);
    case Posted => ChannelStepKeeps(s, config, step);
    case Settles(_) => ChannelStepKeeps(s, config, step);
    case ServerCrashed => ChannelStepKeeps(s, config, step);
    case Arrived(_) => ChannelStepKeeps(s, config, step);
    case _ => ServerStepKeeps(s, config, step);
    SysInvHas(Next(s, config, step), config);
  }
}
