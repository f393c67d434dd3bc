/** One scan: src/runtime.ts `scanOnce`, with the classifications of src/railgun/scanner.ts it relies on. */
module ScanModel {
  import opened Domain
  import opened Results
  import opened ProjectionModel
  import opened Database
  import opened Reconciliation

  /** `bucketToPOIStatus`; `anyValid` tells whether some list reports a valid proof for the note. */
  function PoiOfBucket(bucket: BalanceBucket, anyValid: bool): PoiStatus {
    match bucket
    case Spendable => SPENDABLE
    case ShieldBlocked => BLOCKED
    case Spent => if anyValid then SPENDABLE else UNKNOWN
    case OtherBucket => UNKNOWN
    case _ => PENDING
  }

  /** A note is spendable by its bucket, or after it was spent by a valid proof; blocked by its bucket alone; pending in
      the buckets of a proof under way; and otherwise unknown. */
  lemma PoiMeans(bucket: BalanceBucket, anyValid: bool)
    ensures var poi := PoiOfBucket(bucket, anyValid);
            && (poi == SPENDABLE <==> bucket == Spendable || (bucket == Spent && anyValid))
            && (poi == BLOCKED <==> bucket == ShieldBlocked)
            && (poi == PENDING <==> bucket in {ShieldPending, ProofSubmitted, MissingInternalPOI, MissingExternalPOI})
            && (poi == UNKNOWN <==> bucket == OtherBucket || (bucket == Spent && !anyValid))
  {
  }

  lemma KeyedAfterEvent(db: Db, event: Event)
    requires Keyed(db)
    ensures Keyed(InsertEvent(db, event))
    ensures InsertEvent(db, event).intents == db.intents && InsertEvent(db, event).byReference == db.byReference
  {
  }

  lemma RebuildKeepsIntents(db: Db, i: IntentId, now: nat, settlement: Option<SettlementId>)
    requires i in db.intents && i in db.projections
    ensures RebuildTx(db, i, now, settlement).intents == db.intents
    ensures RebuildTx(db, i, now, settlement).byReference == db.byReference
  {
    hide Derive, Listed;
  }

  lemma KeyedAfterReconcile(db: Db, c: Candidate, now: nat)
    requires Keyed(db) && ReconcileTx(db, c, now).Ok?
    ensures Keyed(ReconcileTx(db, c, now).value)
    ensures ReconcileTx(db, c, now).value.intents == db.intents
    ensures ReconcileTx(db, c, now).value.byReference == db.byReference
  {
    hide RowOf, PutRow, RebuildTx, InsertEvent;
    var existing := Existing(db, c.id);
    var row := RowOf(c, FindIntentByReference(db, c.identity.reference), existing, now);
    var stored := db.(settlements := PutRow(db.settlements, FindRow(db.settlements, c.id), row));
    assert Keyed(stored);
    IntentOfRow(db, c, existing, now);
    hide Keyed, FindIntentByReference, Existing;
    if row.intentId.Some? {
      var i := row.intentId.value;
      assert i in stored.projections by { KeyedHas(stored, i); }
      var observed := if existing.None? then InsertEvent(stored, ObservedEvent(stored, i, c.id, now)) else stored;
      KeyedAfterEvent(stored, ObservedEvent(stored, i, c.id, now));
      KeyedHas(observed, i);
      KeyedAfterRebuild(observed, i, now, Some(c.id));
      RebuildKeepsIntents(observed, i, now, Some(c.id));
    }
  }

  lemma KeyedHas(db: Db, i: IntentId)
    requires Keyed(db) && i in db.intents
    ensures i in db.projections
  {
  }

  lemma IntentOfRow(db: Db, c: Candidate, existing: Option<Settlement>, now: nat)
    requires Keyed(db)
    ensures var row := RowOf(c, FindIntentByReference(db, c.identity.reference), existing, now);
            row.intentId.Some? ==> row.intentId.value in db.intents
  {
  }

  /** Transactions one after another, up to the first that throws. */
  function BatchTx(db: Db, batch: seq<Candidate>, now: nat): (r: (Db, Option<Failure>))
    requires Keyed(db)
    ensures Keyed(r.0) && r.0.intents == db.intents && r.0.byReference == db.byReference
    decreases |batch|
  {
    if batch == [] then (db, None)
    else
      var last := |batch| - 1;
      var before := BatchTx(db, batch[..last], now);
      if before.1.Some? then before
      else
        match ReconcileTx(before.0, batch[last], now)
        case Ok(after) => KeyedAfterReconcile(before.0, batch[last], now); (after, None)
        case Thrown(e) => (before.0, Some(e))
  }

  /** Once a transaction has thrown, the rest of the batch is not attempted. */
  lemma {:induction false} BatchStops(db: Db, batch: seq<Candidate>, k: nat, now: nat)
    requires Keyed(db) && k <= |batch| && BatchTx(db, batch[..k], now).1.Some?
    ensures BatchTx(db, batch, now) == BatchTx(db, batch[..k], now)
  {
    hide ReconcileTx, Keyed;
    if k == |batch| {
      assert batch[..k] == batch;
    } else {
      var last := |batch| - 1;
      assert batch[..last][..k] == batch[..k];
      BatchStops(db, batch[..last], k, now);
    }
  }

  /** Where a batch stands after one more candidate. */
  lemma BatchSnoc(start: Db, before: Db, batch: seq<Candidate>, k: nat, now: nat)
    requires Keyed(start) && Keyed(before) && k < |batch|
    requires BatchTx(start, batch[..k], now) == (before, None)
    ensures match ReconcileTx(before, batch[k], now)
            case Ok(after) => Keyed(after) && BatchTx(start, batch[..k + 1], now) == (after, None)
            case Thrown(e) => BatchTx(start, batch, now) == (before, Some(e))
  {
    hide ReconcileTx, Keyed;
    assert batch[..k + 1][..k] == batch[..k];
    if ReconcileTx(before, batch[k], now).Ok? {
      KeyedAfterReconcile(before, batch[k], now);
    } else {
      BatchStops(start, batch, k + 1, now);
    }
  }

  function Ids(batch: seq<Candidate>): set<SettlementId> { set c <- batch :: c.id }

  lemma IdsStep(batch: seq<Candidate>, k: nat)
    requires k < |batch|
    ensures Ids(batch[..k + 1]) == Ids(batch[..k]) + {batch[k].id}
  {
    assert batch[..k + 1] == batch[..k] + [batch[k]];
  }

  /** `listChainStateRecheckCandidates`; `since` is `now` minus the recheck window and may be negative. */
  predicate NeedsRecheck(row: Settlement, since: int) {
    row.seen.chainStatus != FINALIZED || (row.eligibleAt.Some? && row.eligibleAt.value >= since)
  }

  /** The rows to look up again, with what the providers now say about them. */
  function Rechecks(
    rows: seq<Settlement>, seen: set<SettlementId>, since: int, refresh: Settlement -> Candidate): seq<Candidate> {
    if rows == [] then []
    else
      var last := |rows| - 1;
      Rechecks(rows[..last], seen, since, refresh)
      + if NeedsRecheck(rows[last], since) && rows[last].seen.id !in seen then [refresh(rows[last])] else []
  }

  /** The loop over the candidates of a scan. */
  method ReconcileAll(service: ReconciliationService, candidates: seq<Candidate>, now: nat)
    returns (failure: Option<Failure>, seen: set<SettlementId>)
    requires Keyed(service.database.State())
    modifies service.database
    ensures (service.database.State(), failure) == BatchTx(old(service.database.State()), candidates, now)
    ensures failure.None? ==> seen == Ids(candidates)
    ensures Keyed(service.database.State())
  {
    seen := {};
    for k := 0 to |candidates|
      invariant Keyed(service.database.State())
      invariant BatchTx(old(service.database.State()), candidates[..k], now) == (service.database.State(), None)
      invariant seen == Ids(candidates[..k])
    {
      hide ReconcileTx, Keyed, BatchTx, Ids;
      BatchSnoc(old(service.database.State()), service.database.State(), candidates, k, now);
      IdsStep(candidates, k);
      seen := seen + {candidates[k].id};
      var r := service.Reconcile(candidates[k], now);
      if r.Thrown? { return Some(r.error), seen; }
    }
    assert candidates[..|candidates|] == candidates;
    failure := None;
  }

  /** Where the loop of `RecheckAll` stands after one more row. */
  lemma RecheckStep(
    start: Db, before: Db, rows: seq<Settlement>, k: nat, seen: set<SettlementId>, since: int,
    refresh: Settlement -> Candidate, now: nat)
    requires Keyed(start) && Keyed(before) && k < |rows|
    requires BatchTx(start, Rechecks(rows[..k], seen, since, refresh), now) == (before, None)
    ensures var done, more := Rechecks(rows[..k], seen, since, refresh), Rechecks(rows[..k + 1], seen, since, refresh);
            if !NeedsRecheck(rows[k], since) || rows[k].seen.id in seen then more == done
            else
              && |more| == |done| + 1
              && match ReconcileTx(before, refresh(rows[k]), now)
                 case Ok(after) => Keyed(after) && BatchTx(start, more, now) == (after, None)
                 case Thrown(e) => BatchTx(start, Rechecks(rows, seen, since, refresh), now) == (before, Some(e))
  {
    hide ReconcileTx, Keyed, NeedsRecheck;
    var done, more := Rechecks(rows[..k], seen, since, refresh), Rechecks(rows[..k + 1], seen, since, refresh);
    assert rows[..k + 1][..k] == rows[..k];
    if NeedsRecheck(rows[k], since) && rows[k].seen.id !in seen {
      assert more == done + [refresh(rows[k])] && more[..|done|] == done;
      if ReconcileTx(before, refresh(rows[k]), now).Ok? {
        KeyedAfterReconcile(before, refresh(rows[k]), now);
      } else {
        RechecksPrefix(rows, k + 1, seen, since, refresh);
        BatchStops(start, Rechecks(rows, seen, since, refresh), |more|, now);
      }
    }
  }

  /** The loop over the rows whose chain state may still change. */
  method RecheckAll(
    service: ReconciliationService, rows: seq<Settlement>, seen: set<SettlementId>, since: int,
    refresh: Settlement -> Candidate, now: nat)
    returns (failure: Option<Failure>, rechecked: nat)
    requires Keyed(service.database.State())
    modifies service.database
    ensures (service.database.State(), failure)
         == BatchTx(old(service.database.State()), Rechecks(rows, seen, since, refresh), now)
    ensures failure.None? ==> rechecked == |Rechecks(rows, seen, since, refresh)|
  {
    rechecked := 0;
    ghost var start := service.database.State();
    for k := 0 to |rows|
      invariant Keyed(service.database.State())
      invariant rechecked == |Rechecks(rows[..k], seen, since, refresh)|
      invariant BatchTx(start, Rechecks(rows[..k], seen, since, refresh), now) == (service.database.State(), None)
    {
      hide ReconcileTx, Keyed, Rechecks, BatchTx;
      RecheckStep(start, service.database.State(), rows, k, seen, since, refresh, now);
      if !NeedsRecheck(rows[k], since) || rows[k].seen.id in seen { continue; }
      var r := service.Reconcile(refresh(rows[k]), now);
      if r.Thrown? { return Some(r.error), rechecked; }
      rechecked := rechecked + 1;
    }
    assert rows[..|rows|] == rows;
    failure := None;
  }

  /** A whole scan: the candidates, then the rows to look up again, up to the first failure; and how many of those. */
  function ScanTx(db: Db, candidates: seq<Candidate>, refresh: Settlement -> Candidate, window: nat, now: nat):
    (Db, Option<Failure>, nat)
    requires Keyed(db)
  {
    var first := BatchTx(db, candidates, now);
    if first.1.Some? then (first.0, first.1, 0)
    else
      var due := Rechecks(first.0.settlements, Ids(candidates), now - window, refresh);
      var second := BatchTx(first.0, due, now);
      (second.0, second.1, |due|)
  }

  /** `scanOnce` between its two maintenance passes. */
  method ScanOnce(
    service: ReconciliationService, candidates: seq<Candidate>, refresh: Settlement -> Candidate, window: nat, now: nat)
    returns (failure: Option<Failure>, rechecked: nat)
    requires Keyed(service.database.State())
    modifies service.database
    ensures var (after, thrown, count) := ScanTx(old(service.database.State()), candidates, refresh, window, now);
            service.database.State() == after && failure == thrown && (failure.None? ==> rechecked == count)
  {
    hide BatchTx, Rechecks, Keyed, Ids;
    var seen;
    failure, seen := ReconcileAll(service, candidates, now);
    if failure.Some? { return failure, 0; }
    failure, rechecked := RecheckAll(service, service.database.settlements, seen, now - window, refresh, now);
  }

  lemma {:induction false} RechecksPrefix(
    rows: seq<Settlement>, k: nat, seen: set<SettlementId>, since: int, refresh: Settlement -> Candidate)
    requires k <= |rows|
    ensures |Rechecks(rows[..k], seen, since, refresh)| <= |Rechecks(rows, seen, since, refresh)|
    ensures Rechecks(rows, seen, since, refresh)[..|Rechecks(rows[..k], seen, since, refresh)|]
         == Rechecks(rows[..k], seen, since, refresh)
  {
    if k == |rows| {
      assert rows[..k] == rows;
    } else {
      assert rows[..|rows| - 1][..k] == rows[..k];
      RechecksPrefix(rows[..|rows| - 1], k, seen, since, refresh);
    }
  }
}
