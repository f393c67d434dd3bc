/** From a covering payment to a fulfilled order: what the scanner, the delivery passes and the shop can always do. */
module FulfilmentProgress {
  import opened Domain
  import opened Results
  import opened ProjectionModel
  import opened Database
  import opened Reconciliation
  import opened ServerInvariant
  import opened ServerSteps
  import opened ServerFacts
  import opened ScanFacts
  import opened ServerProgress
  import opened DeliveryModel
  import opened MerchantModel
  import opened SystemModel
  import opened SystemInvariant
  import opened SystemSteps
  import opened SystemRuns
  import opened EndToEnd

  // ---- Rows that are due ------------------------------------------------------------------------

  predicate IsDue(d: Delivery, t: nat) { IsPending(d) && d.nextAttemptAt <= t }

  function DueCount(delivery: seq<Delivery>, t: nat): nat {
    if delivery == [] then 0
    else DueCount(delivery[..|delivery| - 1], t) + if IsDue(delivery[|delivery| - 1], t) then 1 else 0
  }

  lemma {:induction false} DueUpdate(delivery: seq<Delivery>, k: nat, d: Delivery, t: nat)
    requires k < |delivery|
    ensures DueCount(delivery[k := d], t) + (if IsDue(delivery[k], t) then 1 else 0)
         == DueCount(delivery, t) + if IsDue(d, t) then 1 else 0
  {
    var last := |delivery| - 1;
    if k == last {
      assert delivery[k := d][..last] == delivery[..last];
    } else {
      assert delivery[k := d][..last] == delivery[..last][k := d];
      DueUpdate(delivery[..last], k, d, t);
    }
  }

  lemma {:induction false} InsertDueKeeps(due: seq<Snapshot>, s: Snapshot)
    requires DistinctRows(due) && forall t <- due :: t.row != s.row
    ensures s in InsertDue(due, s) && forall t <- due :: t in InsertDue(due, s)
  {
    if due != [] && due[|due| - 1].event.occurredAt > s.event.occurredAt {
      InsertDueKeeps(due[..|due| - 1], s);
    }
  }

  lemma {:induction false} DueLists(outbox: seq<Event>, delivery: seq<Delivery>, t: nat, k: nat)
    requires |outbox| == |delivery| && k < |outbox| && IsDue(delivery[k], t)
    ensures exists s <- Due(outbox, delivery, t) :: s.row == k
  {
    var last := |outbox| - 1;
    var earlier := Due(outbox[..last], delivery[..last], t);
    var s := Snapshot(last, outbox[last], delivery[last].attempts);
    if k < last { DueLists(outbox[..last], delivery[..last], t, k); }
    if IsDue(delivery[last], t) { InsertDueKeeps(earlier, s); }
  }

  /** A pass at a time at which some row is due begins with a due row. */
  lemma PassHasHead(db: Db, t: nat, k: nat)
    requires |db.outbox| == |db.delivery| && k < |db.outbox| && IsDue(db.delivery[k], t)
    ensures var work := Snapshots(db, t);
            && work != [] && work[0].row < |db.outbox| && work[0].event == db.outbox[work[0].row]
            && IsDue(db.delivery[work[0].row], t)
  {
    DueLists(db.outbox, db.delivery, t, k);
    assert Due(db.outbox, db.delivery, t)[0] in Due(db.outbox, db.delivery, t);
  }

  // ---- One row of a pass ------------------------------------------------------------------------

  lemma CrashStep(s: System, config: Config)
    requires Keyed(s.server)
    ensures Next(s, config, ServerCrashed) == s.(pass := None)
  {
  }

  lemma StartStep(s: System, config: Config, t: nat)
    requires Keyed(s.server) && s.pass.None?
    ensures Next(s, config, PassStarted(t)) == s.(pass := Some(PassState(t, Snapshots(s.server, t), false)))
  {
  }

  lemma PostStep(s: System, config: Config)
    requires Keyed(s.server) && s.pass.Some? && s.pass.value.work != [] && !s.pass.value.posted
    ensures Next(s, config, Posted)
         == s.(wire := s.wire + {s.pass.value.work[0].event}, pass := Some(s.pass.value.(posted := true)))
  {
  }

  lemma FailStep(s: System, config: Config)
    requires Keyed(s.server) && s.pass.Some? && s.pass.value.work != [] && s.pass.value.posted
    ensures Next(s, config, Settles(false)).server
         == Settled(s.server, config, s.pass.value.work[0], false, s.pass.value.now)
    ensures var after := Next(s, config, Settles(false));
            after.merchant == s.merchant && after.wire == s.wire && after.answered == s.answered
  {
  }

  lemma Consecutive(config: Config, steps: seq<Step>, a: Step, b: Step)
    requires config.Valid()
    ensures Keyed(Next(Run(config, steps), config, a).server)
    ensures Run(config, steps + [a, b]) == Next(Next(Run(config, steps), config, a), config, b)
  {
    hide *;
    RunOneMore(config, steps, a);
    RunOneMore(config, steps + [a], b);
    assert steps + [a] + [b] == steps + [a, b];
  }

  /** The pass begins and posts its first row. */
  lemma HeadIsPosted(config: Config, steps: seq<Step>, t: nat)
    requires config.Valid() && Run(config, steps).pass.None? && Snapshots(Run(config, steps).server, t) != []
    ensures var s, work := Run(config, steps), Snapshots(Run(config, steps).server, t);
            Run(config, steps + [PassStarted(t), Posted])
            == s.(wire := s.wire + {work[0].event}, pass := Some(PassState(t, work, true)))
  {
    hide *;
    Consecutive(config, steps, PassStarted(t), Posted);
    StartStep(Run(config, steps), config, t);
    PostStep(Next(Run(config, steps), config, PassStarted(t)), config);
  }

  lemma FailedIsNotDue(config: Config, d: Delivery, t: nat)
    requires IsPending(d)
    ensures !IsDue(SettledRow(config, d, false, t), t)
  {
  }

  lemma SettledHead(db: Db, config: Config, t: nat)
    requires Inv(db) && |db.outbox| == |db.delivery| && Snapshots(db, t) != []
    ensures var head := Snapshots(db, t)[0];
            && head.row < |db.delivery|
            && Settled(db, config, head, false, t)
                 == WithRow(db, head.row, SettledRow(config, db.delivery[head.row], false, t))
  {
    hide Settled, WithRow, SettledRow, Keyed, RowsOk, AgreesBut, LogOk;
    SnapshotsOk(db, t);
    WorkTail(db, Snapshots(db, t));
    assert Snapshots(db, t)[..1] == [Snapshots(db, t)[0]];
    SettledIsWithRow(db, config, Snapshots(db, t)[0], false, t);
  }

  /** What is left of the rows after one was posted and not answered. */
  ghost predicate OneLess(s: System, after: System, t: nat, k: nat) {
    && after.pass.None? && after.merchant == s.merchant && after.server.outbox == s.server.outbox
    && |after.server.delivery| == |s.server.delivery| && k < |s.server.delivery|
    && after.server.delivery[k] == s.server.delivery[k]
    && DueCount(after.server.delivery, t) < DueCount(s.server.delivery, t)
  }

  lemma RowFails(s: System, after: System, row: nat, d: Delivery, t: nat, k: nat)
    requires row < |s.server.delivery| && k < |s.server.delivery| && row != k
    requires IsDue(s.server.delivery[row], t) && !IsDue(d, t)
    requires after.server == WithRow(s.server, row, d) && after.merchant == s.merchant && after.pass.None?
    ensures OneLess(s, after, t, k)
  {
    DueUpdate(s.server.delivery, row, d, t);
  }

  lemma HeadFails(config: Config, steps: seq<Step>, t: nat, k: nat)
    requires config.Valid() && Run(config, steps).pass.None?
    requires var db := Run(config, steps).server;
             && |db.outbox| == |db.delivery| && k < |db.outbox| && IsDue(db.delivery[k], t)
             && Snapshots(db, t) != [] && Snapshots(db, t)[0].row != k
    ensures OneLess(Run(config, steps),
                    Run(config, steps + [PassStarted(t), Posted, Settles(false), ServerCrashed]), t, k)
  {
    hide *;
    var s := Run(config, steps);
    var posted := steps + [PassStarted(t), Posted];
    var head := Snapshots(s.server, t)[0];
    PassHasHead(s.server, t, k);
    SysInvHas(s, config);
    HeadIsPosted(config, steps, t);
    Consecutive(config, posted, Settles(false), ServerCrashed);
    assert posted + [Settles(false), ServerCrashed] == steps + [PassStarted(t), Posted, Settles(false), ServerCrashed];
    FailStep(Run(config, posted), config);
    CrashStep(Next(Run(config, posted), config, Settles(false)), config);
    SettledHead(s.server, config, t);
    DuePending(s.server.delivery[head.row], t);
    FailedIsNotDue(config, s.server.delivery[head.row], t);
    RowFails(s, Run(config, posted + [Settles(false), ServerCrashed]), head.row,
             SettledRow(config, s.server.delivery[head.row], false, t), t, k);
  }

  lemma DuePending(d: Delivery, t: nat)
    requires IsDue(d, t)
    ensures IsPending(d)
  {
  }

  /** A row that is due is posted after as many passes as there are rows due before it, even if all of those fail. */
  lemma {:induction false} DueRowIsPosted(config: Config, steps: seq<Step>, t: nat, k: nat) returns (more: seq<Step>)
    requires config.Valid() && Run(config, steps).pass.None?
    requires var db := Run(config, steps).server;
             |db.outbox| == |db.delivery| && k < |db.outbox| && IsDue(db.delivery[k], t)
    ensures var s, after := Run(config, steps), Run(config, steps + more);
            after.merchant == s.merchant && after.server.outbox == s.server.outbox && s.server.outbox[k] in after.wire
    decreases DueCount(Run(config, steps).server.delivery, t)
  {
    hide *;
    var s := Run(config, steps);
    PassHasHead(s.server, t, k);
    if Snapshots(s.server, t)[0].row == k {
      more := [PassStarted(t), Posted];
      HeadIsPosted(config, steps, t);
    } else {
      var failed := [PassStarted(t), Posted, Settles(false), ServerCrashed];
      HeadFails(config, steps, t, k);
      LessFacts(s, Run(config, steps + failed), t, k);
      var rest := DueRowIsPosted(config, steps + failed, t, k);
      more := failed + rest;
      assert steps + more == steps + failed + rest;
    }
  }

  lemma LessFacts(s: System, after: System, t: nat, k: nat)
    requires OneLess(s, after, t, k)
    ensures after.pass.None? && after.merchant == s.merchant && after.server.outbox == s.server.outbox
    ensures |after.server.delivery| == |s.server.delivery| && k < |s.server.delivery|
    ensures after.server.delivery[k] == s.server.delivery[k]
    ensures DueCount(after.server.delivery, t) < DueCount(s.server.delivery, t)
  {
  }

  // ---- Arrival ----------------------------------------------------------------------------------

  /** A timely confirmation that the shop has not received, of an order that is linked and was never fulfilled. */
  ghost predicate Awaited(s: System, e: Event, o: OrderId) {
    && e in s.server.outbox && e.kind == PaymentConfirmed && e.status == PAID && e.id !in s.merchant.receipts
    && o in s.merchant.orders && s.merchant.orders[o].intentId == Some(e.intentId)
         && s.merchant.orders[o].fulfillments == 0
  }

  ghost predicate Done(s: System, o: OrderId) {
    o in s.merchant.orders && s.merchant.orders[o].status == Fulfilled && s.merchant.orders[o].fulfillments == 1
  }

  lemma ArrivalFulfils(s: System, config: Config, e: Event, o: OrderId)
    requires SysInv(s, config) && Keyed(s.server) && Awaited(s, e, o) && e in s.wire
    ensures Done(Next(s, config, Arrived(e)), o)
  {
    hide Inv, Accept, ReceiptsOk, OrdersOk, DeliveryOk, ChannelOk, KeysDistinct, OrderKeysOk;
    assert LinkOk(s.server, s.merchant, o);
    ConfirmationFulfils(s.server, s.merchant, e);
  }

  /** The row of an event that the shop has not received is pending, or was given up. */
  lemma NotReceivedNotDelivered(s: System, config: Config, k: nat)
    requires SysInv(s, config) && k < |s.server.outbox| && s.server.outbox[k].id !in s.merchant.receipts
    ensures k < |s.server.delivery| == |s.server.outbox| && s.server.delivery[k].deliveredAt.None?
  {
    hide Inv, LinkedByKey;
  }

  lemma ReplayStep(s: System, config: Config, k: nat)
    requires Inv(s.server) && Keyed(s.server) && k < |s.server.outbox| == |s.server.delivery|
    requires s.server.delivery[k].deliveredAt.None?
    ensures var after := Next(s, config, ReplayRequested(s.server.outbox[k].id, 0));
            && after == s.(server := after.server) && after.server.outbox == s.server.outbox
            && |after.server.delivery| == |s.server.outbox| && IsPending(after.server.delivery[k])
  {
    RowOfEvent(s.server, k);
    hide IndexOf;
  }

  /** The operator's replay makes the row pending again if it was given up, and leaves it alone otherwise. */
  lemma MadePending(config: Config, steps: seq<Step>, k: nat)
    requires config.Valid() && k < |Run(config, steps).server.outbox|
    requires Run(config, steps).server.outbox[k].id !in Run(config, steps).merchant.receipts
    ensures var s := Run(config, steps);
            var after := Run(config, steps + [ServerCrashed, ReplayRequested(s.server.outbox[k].id, 0)]);
            && after.pass.None? && after.merchant == s.merchant && after.server.outbox == s.server.outbox
            && |after.server.delivery| == |s.server.outbox| && IsPending(after.server.delivery[k])
  {
    hide *;
    var s := Run(config, steps);
    NotReceivedNotDelivered(s, config, k);
    SysInvHas(s, config);
    Consecutive(config, steps, ServerCrashed, ReplayRequested(s.server.outbox[k].id, 0));
    CrashStep(s, config);
    ReplayStep(s.(pass := None), config, k);
  }

  /** From every reachable state a timely confirmation that the shop has not received can still arrive, whatever became
      of its row, of the running pass and of the other webhooks, and it fulfils the order. */
  lemma ConfirmationCanArrive(config: Config, steps: seq<Step>, e: Event, o: OrderId) returns (more: seq<Step>)
    requires config.Valid() && Awaited(Run(config, steps), e, o)
    ensures Done(Run(config, steps + more), o)
  {
    hide *;
    var s := Run(config, steps);
    var k := AwaitedRow(s, e, o);
    var ready := [ServerCrashed, ReplayRequested(e.id, 0)];
    MadePending(config, steps, k);
    var pending := Run(config, steps + ready);
    var t := pending.server.delivery[k].nextAttemptAt;
    PendingIsDue(pending.server.delivery[k]);
    var rest := DueRowIsPosted(config, steps + ready, t, k);
    var posted := steps + ready + rest;
    SysInvHas(Run(config, posted), config);
    StillAwaited(s, Run(config, posted), e, o);
    ArrivalFulfils(Run(config, posted), config, e, o);
    RunOneMore(config, posted, Arrived(e));
    more := ready + rest + [Arrived(e)];
    assert steps + more == posted + [Arrived(e)];
  }

  lemma AwaitedRow(s: System, e: Event, o: OrderId) returns (k: nat)
    requires Awaited(s, e, o)
    ensures k < |s.server.outbox| && s.server.outbox[k] == e && e.id !in s.merchant.receipts
  {
    k :| k < |s.server.outbox| && s.server.outbox[k] == e;
  }

  lemma PendingIsDue(d: Delivery)
    requires IsPending(d)
    ensures IsDue(d, d.nextAttemptAt)
  {
  }

  lemma StillAwaited(s: System, after: System, e: Event, o: OrderId)
    requires Awaited(s, e, o) && after.merchant == s.merchant && after.server.outbox == s.server.outbox
    ensures Awaited(after, e, o)
  {
  }

  // ---- From the note ----------------------------------------------------------------------------

  /** A note that becomes creditable to an intent that is not paid, and pays it in time. */
  ghost predicate PaysInTime(db: Db, c: Candidate, i: IntentId, now: nat) {
    && Reconciled(db, c, now) && Row(db, c, now).intentId == Some(i) && Creditable(Row(db, c, now))
    && Share(Existing(db, c.id), i, Creditable) == 0
    && i in db.intents && i in db.projections && !Paid(db.projections[i])
    && db.projections[i].received + c.identity.amount >= db.intents[i].expected
    && i in ReconcileTx(db, c, now).value.projections && ReconcileTx(db, c, now).value.projections[i].status == PAID
  }

  lemma PaymentIsAnnounced(db: Db, c: Candidate, i: IntentId, now: nat)
    requires PaysInTime(db, c, i, now)
    ensures Inv(db) && Keyed(db) && c.identity.amount > 0 && ReconcileTx(db, c, now).Ok?
    ensures var after := ReconcileTx(db, c, now).value;
            && Inv(after) && |after.outbox| > |db.outbox| && after.outbox[..|db.outbox|] == db.outbox
            && var e := after.outbox[|after.outbox| - 1];
               e.kind == PaymentConfirmed && e.status == PAID && e.intentId == i
  {
    hide Inv, ReconcileTx, Row, Existing, Creditable, Share;
    ReconciledIsAccepted(db, c, now);
    CoveringNoteConfirms(db, c, i, now);
    NoteEvents(db, c, i, now);
    CreditIsReceived(db, c, i, now);
  }

  /** An event that is new to the outbox is new to the shop. */
  lemma NewIsNotReceived(db: Db, after: Db, m: Merchant)
    requires ReceiptsOk(db, m) && Inv(after) && |after.outbox| > |db.outbox| && after.outbox[..|db.outbox|] == db.outbox
    ensures after.outbox[|after.outbox| - 1].id !in m.receipts
  {
    var last := |after.outbox| - 1;
    forall id <- m.receipts ensures id != after.outbox[last].id {
      var k :| 0 <= k < |db.outbox| && db.outbox[k] == m.receipts[id];
      assert after.outbox[k] == after.outbox[..|db.outbox|][k];
    }
  }

  lemma ReceiptsAreKnown(s: System, config: Config)
    requires SysInv(s, config)
    ensures ReceiptsOk(s.server, s.merchant)
  {
  }

  lemma IsAwaited(s: System, e: Event, o: OrderId, i: IntentId)
    requires e in s.server.outbox && e.kind == PaymentConfirmed && e.status == PAID && e.intentId == i
    requires e.id !in s.merchant.receipts && o in s.merchant.orders
    requires s.merchant.orders[o].intentId == Some(i) && s.merchant.orders[o].fulfillments == 0
    ensures Awaited(s, e, o)
  {
  }

  lemma ScanLeavesRest(s: System, config: Config, c: Candidate, now: nat)
    requires Keyed(s.server)
    ensures Next(s, config, Scanned(c, now)).merchant == s.merchant
  {
    hide ReconcileTx;
  }

  /** From every reachable state: if a note pays the intent of a linked order that was never fulfilled in time, the scan
      that sees it has a continuation that fulfils the order. */
  lemma PaymentCanFulfil(config: Config, steps: seq<Step>, o: OrderId, i: IntentId, c: Candidate, now: nat)
    returns (more: seq<Step>)
    requires config.Valid() && PaysInTime(Run(config, steps).server, c, i, now)
             && o in Run(config, steps).merchant.orders
    requires var order := Run(config, steps).merchant.orders[o]; order.intentId == Some(i) && order.fulfillments == 0
    ensures Done(Run(config, steps + [Scanned(c, now)] + more), o)
  {
    hide *;
    var s := Run(config, steps);
    PaymentIsAnnounced(s.server, c, i, now);
    RunOneMore(config, steps, Scanned(c, now));
    ScanStep(s, config, c, now);
    ScanLeavesRest(s, config, c, now);
    var scanned := Run(config, steps + [Scanned(c, now)]);
    var e := scanned.server.outbox[|scanned.server.outbox| - 1];
    ReceiptsAreKnown(s, config);
    NewIsNotReceived(s.server, scanned.server, s.merchant);
    IsAwaited(scanned, e, o, i);
    more := ConfirmationCanArrive(config, steps + [Scanned(c, now)], e, o);
  }

  /** A covering note pays in time if it and all that is credited to the intent already are stamped at or before its
      expiry. */
  lemma TimelyNotePaysInTime(db: Db, c: Candidate, i: IntentId, now: nat)
    requires Reconciled(db, c, now) && Row(db, c, now).intentId == Some(i) && Creditable(Row(db, c, now))
    requires Share(Existing(db, c.id), i, Creditable) == 0
    requires i in db.intents && i in db.projections && !Paid(db.projections[i])
    requires db.projections[i].received + c.identity.amount >= db.intents[i].expected
    requires c.blockTimestamp <= db.intents[i].expiresAt
    requires forall row <- db.settlements :: row.intentId == Some(i) && Creditable(row) ==>
             row.Timestamp() <= db.intents[i].expiresAt
    ensures PaysInTime(db, c, i, now)
  {
    hide Inv, ReconcileTx, Existing, Share, Listed, Derive, Keyed, PutRow;
    ReconciledIsAccepted(db, c, now);
    CoveringNoteConfirms(db, c, i, now);
    CreditIsReceived(db, c, i, now);
    ReconcileEffect(db, c, now);
    var after := ReconcileTx(db, c, now).value;
    var k := PaidHasCrossing(after, i);
    PutIsRowOrOld(db.settlements, FindRow(db.settlements, c.id), Row(db, c, now), k);
    assert Row(db, c, now).Timestamp() == c.blockTimestamp;
  }

  lemma PutIsRowOrOld(rows: seq<Settlement>, at: Option<nat>, row: Settlement, k: Settlement)
    requires at.Some? ==> at.value < |rows|
    requires k in PutRow(rows, at, row)
    ensures k == row || k in rows
  {
  }
}
