/** What scans decide, whatever the order of their candidates, and what a repeated scan leaves alone. */
module ScanFacts {
  import opened Domain
  import opened Results
  import opened Sequences
  import opened Sums
  import opened ProjectionModel
  import opened CrossingFacts
  import opened Database
  import opened Reconciliation
  import opened ServerInvariant
  import opened ServerSteps
  import opened ScanModel

  // ---- One transaction --------------------------------------------------------------------------

  /** The projection is what the settlements say at this time. */
  ghost predicate Current(db: Db, i: IntentId, now: nat)
    requires i in db.intents && i in db.projections
  {
    var rows := Listed(db.settlements, i);
    db.projections[i].status == StatusOf(db.intents[i], Filter(rows, Creditable), SumIf(rows, Creditable), now)
  }

  lemma RebuildDerives(db: Db, i: IntentId, now: nat, settlement: Option<SettlementId>)
    requires i in db.intents && i in db.projections
    ensures var after := RebuildTx(db, i, now, settlement);
            && after.settlements == db.settlements && after.intents == db.intents && after.byReference == db.byReference
            && after.projections
               == db.projections[i := Derive(db.intents[i], Listed(db.settlements, i), db.projections[i], now)]
  {
    var next := Derive(db.intents[i], Listed(db.settlements, i), db.projections[i], now);
    hide Listed, StatusOf;
    assert next.revision == db.projections[i].revision ==> next == db.projections[i];
  }

  /** What one accepted candidate does to settlements and projections. */
  lemma ReconcileEffect(db: Db, c: Candidate, now: nat)
    requires Inv(db) && Accepted(db, c) && ReconcileTx(db, c, now).Ok?
    ensures var after, row := ReconcileTx(db, c, now).value, Row(db, c, now);
            && Inv(after) && after.intents == db.intents && after.byReference == db.byReference
            && after.settlements == PutRow(db.settlements, FindRow(db.settlements, c.id), row)
            && row.seen.id == c.id
            && (row.intentId.None? ==> after.projections == db.projections)
            && (row.intentId.Some? ==>
                  && var i := row.intentId.value;
                     && i in db.intents && i in db.projections
                     && after.projections
                        == db.projections[i :=
                            Derive(db.intents[i], Listed(after.settlements, i), db.projections[i], now)])
  {
    ReconcileKeeps(db, c, now);
    hide Inv, PutRow, RebuildTx, InsertEvent, Derive, Listed, ServerInvariant.RowOk;
    var stored, row := Stored(db, c, now), Row(db, c, now);
    StoredInvBut(db, c, now);
    if row.intentId.Some? {
      var i := row.intentId.value;
      assert i in stored.projections;
      var observed :=
        if Existing(db, c.id).None? then InsertEvent(stored, ObservedEvent(stored, i, c.id, now)) else stored;
      EventKeepsTables(stored, ObservedEvent(stored, i, c.id, now));
      RebuildDerives(observed, i, now, Some(c.id));
    }
  }

  /** Looking up after an upsert. */
  lemma ExistingAfterPut(db: Db, after: Db, row: Settlement, id: SettlementId)
    requires RowsOk(db) && RowsOk(after)
    requires after.settlements == PutRow(db.settlements, FindRow(db.settlements, row.seen.id), row)
    ensures Existing(after, id) == if id == row.seen.id then Some(row) else Existing(db, id)
  {
    var at := FindRow(db.settlements, row.seen.id);
    var put := after.settlements;
    var k := if at.Some? then at.value else |db.settlements|;
    assert put[k] == row && row in put;
    if id != row.seen.id {
      var n := FindRow(db.settlements, id);
      if n.Some? {
        assert put[n.value] == db.settlements[n.value] && put[n.value] in put;
      } else {
        assert forall r <- put :: r == row || r in db.settlements;
      }
    }
  }

  // ---- A batch ----------------------------------------------------------------------------------

  ghost predicate DistinctIds(batch: seq<Candidate>) {
    forall j, k | 0 <= j < k < |batch| :: batch[j].id != batch[k].id
  }

  /** Ids spell out the UTXO, as the scanner makes them. */
  ghost predicate Labelled(db: Db) { forall row <- db.settlements :: row.seen.id == row.seen.identity.Utxo() }

  /** The candidates of a scan: labelled, positive, and of the identity under which they may be stored already. */
  ghost predicate Fits(db: Db, batch: seq<Candidate>) {
    Labelled(db) && forall c <- batch :: Accepted(db, c) && c.id == c.identity.Utxo()
  }

  ghost predicate Touches(db: Db, batch: seq<Candidate>, now: nat, i: IntentId) {
    exists c <- batch :: Row(db, c, now).intentId == Some(i)
  }

  ghost predicate RowsOutcome(db: Db, batch: seq<Candidate>, now: nat, after: Db) {
    && (forall c <- batch :: Existing(after, c.id) == Some(Row(db, c, now)))
    && forall id: SettlementId :: (forall c <- batch :: c.id != id) ==> Existing(after, id) == Existing(db, id)
  }

  ghost predicate ProjectionsOutcome(db: Db, batch: seq<Candidate>, now: nat, after: Db) {
    forall i <- after.intents ::
      && i in after.projections && i in db.projections
      && if Touches(db, batch, now, i) then Current(after, i, now) else after.projections[i] == db.projections[i]
  }

  /** The state after a batch, in terms of the state before it. */
  ghost predicate Outcome(db: Db, batch: seq<Candidate>, now: nat, after: Db) {
    && Inv(after) && Labelled(after) && after.intents == db.intents && after.byReference == db.byReference
    && RowsOutcome(db, batch, now, after) && ProjectionsOutcome(db, batch, now, after)
  }

  lemma LabelledIsFree(db: Db, c: Candidate)
    requires Labelled(db) && c.id == c.identity.Utxo() && Existing(db, c.id).None?
    ensures !UtxoTaken(db.settlements, c.identity.Utxo())
  {
  }

  lemma DerivedStatus(intent: Intent, rows: seq<Settlement>, previous: Projection, now: nat)
    ensures Derive(intent, rows, previous, now).status
         == StatusOf(intent, Filter(rows, Creditable), SumIf(rows, Creditable), now)
  {
    hide StatusOf, Filter, SumIf;
  }

  /** A candidate leaves the accounts of other intents alone. */
  lemma OtherAccounts(db: Db, c: Candidate, now: nat, i: IntentId)
    requires Inv(db) && Accepted(db, c) && Row(db, c, now).intentId != Some(i)
    ensures Listed(PutRow(db.settlements, FindRow(db.settlements, c.id), Row(db, c, now)), i)
            == Listed(db.settlements, i)
  {
    MatchIsStable(db, c, now);
    hide Inv, Row, Listed, PutRow;
    ListedUntouched(db.settlements, FindRow(db.settlements, c.id), Row(db, c, now), i);
  }

  lemma CurrentAfter(db: Db, c: Candidate, now: nat, i: IntentId)
    requires Inv(db) && Accepted(db, c) && ReconcileTx(db, c, now).Ok? && i in db.intents
    ensures var after := ReconcileTx(db, c, now).value;
            && i in after.intents && i in after.projections && i in db.projections
            && (Row(db, c, now).intentId == Some(i) ==> Current(after, i, now))
            && (Row(db, c, now).intentId != Some(i) ==>
                  after.projections[i] == db.projections[i]
                      && Listed(after.settlements, i) == Listed(db.settlements, i))
  {
    hide RowsOk, LogOk, AgreesBut, PutRow, StatusOf, Row, Listed, ReconcileTx, Derive, Accepted;
    var after := ReconcileTx(db, c, now).value;
    ReconcileEffect(db, c, now);
    assert i in db.projections && i in after.projections;
    if Row(db, c, now).intentId == Some(i) {
      DerivedStatus(db.intents[i], Listed(after.settlements, i), db.projections[i], now);
    } else {
      OtherAccounts(db, c, now, i);
    }
  }

  lemma BatchStep(db: Db, batch: seq<Candidate>, c: Candidate, now: nat, before: Db)
    requires Outcome(db, batch, now, before) && Fits(db, batch + [c]) && DistinctIds(batch + [c])
    ensures ReconcileTx(before, c, now).Ok? && Outcome(db, batch + [c], now, ReconcileTx(before, c, now).value)
  {
    assert c in batch + [c];
    forall d <- batch ensures d.id != c.id {
      var k :| 0 <= k < |batch| && batch[k] == d;
      assert (batch + [c])[k] == d && (batch + [c])[|batch|] == c;
    }
    assert Existing(before, c.id) == Existing(db, c.id);
    assert Row(before, c, now) == Row(db, c, now);
    if Existing(before, c.id).None? { LabelledIsFree(before, c); }
    BatchStepEffect(db, batch, c, now, before);
  }

  lemma StepRows(db: Db, batch: seq<Candidate>, c: Candidate, now: nat, before: Db, after: Db)
    requires RowsOk(before) && RowsOk(after) && RowsOutcome(db, batch, now, before)
    requires forall d <- batch :: d.id != c.id
    requires Row(db, c, now).seen.id == c.id
    requires after.settlements == PutRow(before.settlements, FindRow(before.settlements, c.id), Row(db, c, now))
    ensures RowsOutcome(db, batch + [c], now, after)
  {
    forall id: SettlementId
      ensures Existing(after, id) == if id == c.id then Some(Row(db, c, now)) else Existing(before, id)
    {
      ExistingAfterPut(before, after, Row(db, c, now), id);
    }
    hide RowsOk, Existing, PutRow, Row;
    assert forall d <- batch + [c] :: d in batch || d == c;
    assert c in batch + [c] && forall d <- batch :: d in batch + [c];
  }

  lemma TouchesMore(db: Db, batch: seq<Candidate>, c: Candidate, now: nat, i: IntentId)
    ensures Touches(db, batch + [c], now, i) <==> Touches(db, batch, now, i) || Row(db, c, now).intentId == Some(i)
  {
    hide Row;
    assert forall d <- batch + [c] :: d in batch || d == c;
    assert c in batch + [c] && forall d <- batch :: d in batch + [c];
  }

  lemma CurrentStays(before: Db, after: Db, i: IntentId, now: nat)
    requires i in before.intents && i in before.projections && i in after.intents && i in after.projections
    requires after.intents[i] == before.intents[i] && after.projections[i] == before.projections[i]
    requires Listed(after.settlements, i) == Listed(before.settlements, i)
    ensures Current(before, i, now) == Current(after, i, now)
  {
    hide Listed, StatusOf;
  }

  lemma StepProjection(db: Db, batch: seq<Candidate>, c: Candidate, now: nat, before: Db, i: IntentId)
    requires Inv(before) && Accepted(before, c) && ReconcileTx(before, c, now).Ok?
    requires Row(before, c, now) == Row(db, c, now)
    requires i in before.intents && i in before.projections && i in db.projections
    requires if Touches(db, batch, now, i) then Current(before, i, now) else before.projections[i] == db.projections[i]
    ensures var after := ReconcileTx(before, c, now).value;
            && i in after.intents && i in after.projections
            && if Touches(db, batch + [c], now, i) then Current(after, i, now)
                 else after.projections[i] == db.projections[i]
  {
    CurrentAfter(before, c, now, i);
    assert before.intents == ReconcileTx(before, c, now).value.intents by { ReconcileEffect(before, c, now); }
    TouchesMore(db, batch, c, now, i);
    hide Inv, Accepted, Row, ReconcileTx, Touches, Current, Listed;
    if Row(before, c, now).intentId != Some(i) { CurrentStays(before, ReconcileTx(before, c, now).value, i, now); }
  }

  lemma IntentsKept(db: Db, c: Candidate, now: nat)
    requires Inv(db) && Accepted(db, c) && ReconcileTx(db, c, now).Ok?
    ensures ReconcileTx(db, c, now).value.intents == db.intents
  {
    ReconcileEffect(db, c, now);
  }

  lemma StepProjections(db: Db, batch: seq<Candidate>, c: Candidate, now: nat, before: Db)
    requires Inv(before) && Accepted(before, c) && ReconcileTx(before, c, now).Ok?
    requires before.intents == db.intents && Row(before, c, now) == Row(db, c, now)
    requires ProjectionsOutcome(db, batch, now, before)
    ensures ProjectionsOutcome(db, batch + [c], now, ReconcileTx(before, c, now).value)
  {
    var after := ReconcileTx(before, c, now).value;
    hide Inv, Accepted, Row, ReconcileTx, Touches, Current;
    IntentsKept(before, c, now);
    forall i <- after.intents
      ensures i in after.projections && i in db.projections
      ensures if Touches(db, batch + [c], now, i) then Current(after, i, now)
              else after.projections[i] == db.projections[i]
    {
      StepProjection(db, batch, c, now, before, i);
    }
  }

  lemma BatchStepEffect(db: Db, batch: seq<Candidate>, c: Candidate, now: nat, before: Db)
    requires Outcome(db, batch, now, before)
    requires Accepted(before, c) && c.id == c.identity.Utxo() && ReconcileTx(before, c, now).Ok?
    requires Row(before, c, now) == Row(db, c, now) && forall d <- batch :: d.id != c.id
    ensures Outcome(db, batch + [c], now, ReconcileTx(before, c, now).value)
  {
    var after, row := ReconcileTx(before, c, now).value, Row(db, c, now);
    ReconcileEffect(before, c, now);
    RowIsOk(before, c, now);
    StepRows(db, batch, c, now, before, after);
    StepProjections(db, batch, c, now, before);
    assert Labelled(after) by {
      forall r <- after.settlements ensures r.seen.id == r.seen.identity.Utxo() {
        assert r == row || r in before.settlements;
      }
    }
  }

  lemma EmptyOutcome(db: Db, now: nat)
    requires Inv(db) && Labelled(db)
    ensures Outcome(db, [], now, db)
  {
    hide RowsOk, LogOk, AgreesBut, Existing;
  }

  lemma PrefixFits(db: Db, batch: seq<Candidate>)
    requires Fits(db, batch) && DistinctIds(batch) && batch != []
    ensures Fits(db, batch[..|batch| - 1]) && DistinctIds(batch[..|batch| - 1])
  {
    assert forall c <- batch[..|batch| - 1] :: c in batch;
  }

  /** A batch of distinct, fitting candidates goes through, with this outcome. */
  lemma {:induction false} BatchOutcome(db: Db, batch: seq<Candidate>, now: nat)
    requires Inv(db) && Fits(db, batch) && DistinctIds(batch)
    ensures BatchTx(db, batch, now).1.None? && Outcome(db, batch, now, BatchTx(db, batch, now).0)
    decreases |batch|
  {
    if batch == [] {
      EmptyOutcome(db, now);
    } else {
      hide Outcome, Fits, DistinctIds, ReconcileTx;
      var last := |batch| - 1;
      assert batch == batch[..last] + [batch[last]];
      PrefixFits(db, batch);
      BatchOutcome(db, batch[..last], now);
      BatchStep(db, batch[..last], batch[last], now, BatchTx(db, batch[..last], now).0);
    }
  }

  // ---- The order of a batch ---------------------------------------------------------------------

  lemma {:induction false} NoRepeats(rows: seq<Settlement>, x: Settlement)
    requires forall j, k | 0 <= j < k < |rows| :: rows[j].seen.id != rows[k].seen.id
    ensures multiset(rows)[x] == if x in rows then 1 else 0
  {
    if rows != [] {
      NoRepeats(rows[1..], x);
      assert rows == [rows[0]] + rows[1..];
      assert x == rows[0] ==> forall k | 0 < k < |rows| :: rows[k] != x;
    }
  }

  lemma ExistingIsMembership(db: Db, x: Settlement)
    requires RowsOk(db)
    ensures x in db.settlements <==> Existing(db, x.seen.id) == Some(x)
  {
  }

  lemma SameTable(a: Db, b: Db)
    requires RowsOk(a) && RowsOk(b) && forall id: SettlementId :: Existing(a, id) == Existing(b, id)
    ensures multiset(a.settlements) == multiset(b.settlements)
  {
    forall x: Settlement ensures multiset(a.settlements)[x] == multiset(b.settlements)[x] {
      NoRepeats(a.settlements, x);
      NoRepeats(b.settlements, x);
      ExistingIsMembership(a, x);
      ExistingIsMembership(b, x);
    }
  }

  lemma SameAccount(a: Db, b: Db, i: IntentId)
    requires multiset(a.settlements) == multiset(b.settlements)
    ensures multiset(Listed(a.settlements, i)) == multiset(Listed(b.settlements, i))
    ensures multiset(Filter(Listed(a.settlements, i), Creditable))
            == multiset(Filter(Listed(b.settlements, i), Creditable))
  {
    FilterPermutation(a.settlements, b.settlements, ForIntent(i));
    FilterPermutation(Listed(a.settlements, i), Listed(b.settlements, i), Creditable);
  }

  /** What does not depend on the order of a batch. */
  ghost predicate SameVisible(a: Db, b: Db) {
    && (forall id: SettlementId :: Existing(a, id) == Existing(b, id))
    && a.intents == b.intents
    && forall i <- a.intents ::
         && i in a.projections && i in b.projections
         && a.projections[i].received == b.projections[i].received
         && a.projections[i].pending == b.projections[i].pending
         && a.projections[i].overpayment == b.projections[i].overpayment
         && a.projections[i].status == b.projections[i].status
  }

  lemma SameStatus(a: Db, b: Db, i: IntentId, now: nat)
    requires Inv(a) && Inv(b) && a.intents == b.intents && i in a.intents
    requires multiset(a.settlements) == multiset(b.settlements)
    requires i in a.projections && i in b.projections
    requires a.projections[i] == b.projections[i] || (Current(a, i, now) && Current(b, i, now))
    requires TiesAgree(Filter(Listed(a.settlements, i), Creditable))
    ensures a.projections[i].received == b.projections[i].received
    ensures a.projections[i].pending == b.projections[i].pending
    ensures a.projections[i].overpayment == b.projections[i].overpayment
    ensures a.projections[i].status == b.projections[i].status
  {
    var s, t := Listed(a.settlements, i), Listed(b.settlements, i);
    assert Agrees(a.intents[i], a.projections[i], s) && Agrees(b.intents[i], b.projections[i], t);
    SameAccount(a, b, i);
    hide Inv, Listed, TiesAgree;
    SumIfPermutation(s, t, Creditable);
    SumIfPermutation(s, t, Pending);
    SumFilter(s, Creditable, Any, Creditable);
    SumFilter(t, Creditable, Any, Creditable);
    StatusIgnoresOrder(a.intents[i], Filter(s, Creditable), Filter(t, Creditable), now, now);
    hide StatusOf;
  }

  /** Reconciling the same candidates at one time leaves the same settlements, amounts and statuses in every order,
      if notes at the same place on chain carry the same timestamp. */
  lemma BatchOrderIsIrrelevant(db: Db, batch: seq<Candidate>, other: seq<Candidate>, now: nat)
    requires Inv(db) && Fits(db, batch) && DistinctIds(batch)
    requires multiset(batch) == multiset(other)
    requires forall i <- db.intents :: TiesAgree(Filter(Listed(BatchTx(db, batch, now).0.settlements, i), Creditable))
    ensures BatchTx(db, batch, now).1.None? && BatchTx(db, other, now).1.None?
    ensures SameVisible(BatchTx(db, batch, now).0, BatchTx(db, other, now).0)
  {
    var a, b := BatchTx(db, batch, now).0, BatchTx(db, other, now).0;
    SameElements(batch, other);
    SameDistinct(batch, other);
    BatchOutcome(db, batch, now);
    BatchOutcome(db, other, now);
    hide BatchTx, Fits, DistinctIds;
    OutcomesAgree(db, batch, other, now, a, b);
  }

  lemma OutcomesAgree(db: Db, batch: seq<Candidate>, other: seq<Candidate>, now: nat, a: Db, b: Db)
    requires Outcome(db, batch, now, a) && Outcome(db, other, now, b)
    requires forall c :: c in batch <==> c in other
    requires forall i <- a.intents :: TiesAgree(Filter(Listed(a.settlements, i), Creditable))
    ensures SameVisible(a, b)
  {
    hide LogOk, AgreesBut, Keyed, Current, Existing, Row, TiesAgree;
    forall id: SettlementId ensures Existing(a, id) == Existing(b, id) {
      if c :| c in batch && c.id == id { assert c in other; }
    }
    SameTable(a, b);
    forall i <- a.intents
      ensures && i in a.projections && i in b.projections
              && a.projections[i].received == b.projections[i].received
              && a.projections[i].pending == b.projections[i].pending
              && a.projections[i].overpayment == b.projections[i].overpayment
              && a.projections[i].status == b.projections[i].status
    {
      assert Touches(db, batch, now, i) <==> Touches(db, other, now, i);
      SameStatus(a, b, i, now);
    }
  }

  lemma SameDistinct(a: seq<Candidate>, b: seq<Candidate>)
    requires multiset(a) == multiset(b) && DistinctIds(a)
    ensures DistinctIds(b)
  {
    SameElements(a, b);
    DuplicatesByCount(a, b);
    forall j, k | 0 <= j < k < |b| ensures b[j].id != b[k].id {
      assert b[j] in a && b[k] in a;
    }
  }
}
