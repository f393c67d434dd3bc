/** What every committed state of the merchant server satisfies. */
module ServerInvariant {
  import opened Domain
  import opened Results
  import opened Sums
  import opened ProjectionModel
  import opened Database
  import opened Reconciliation

  // ---- settlements ------------------------------------------------------------------------------

  ghost predicate RowOk(db: Db, row: Settlement) {
    && row.Amount() > 0
    && (row.intentId.Some? <==> row.matchStatus == MATCHED)
    && (row.intentId.Some? ==>
          && row.intentId.value in db.intents
          && row.seen.identity.reference == Some(db.intents[row.intentId.value].reference)
          && row.seen.identity.token == db.intents[row.intentId.value].token
          && row.seen.identity.chainId == db.intents[row.intentId.value].chainId)
  }

  ghost predicate RowsOk(db: Db) {
    && (forall row <- db.settlements :: RowOk(db, row))
    && forall j, k | 0 <= j < k < |db.settlements| :: db.settlements[j].seen.id != db.settlements[k].seen.id
  }

  // ---- projections ------------------------------------------------------------------------------

  /** The projection is the fold of the intent's settlements; only the choice between OPEN and EXPIRED
      remembers a clock. */
  ghost predicate Agrees(intent: Intent, p: Projection, account: seq<Settlement>) {
    var creditable := Filter(account, Creditable);
    && intent.expected > 0
    && p.received == SumIf(account, Creditable)
    && p.pending == SumIf(account, Pending)
    && p.overpayment == Overpayment(p.received, intent.expected)
    && (|| p.status == StatusOf(intent, creditable, p.received, 0)
        || p.status == StatusOf(intent, creditable, p.received, intent.expiresAt))
  }

  ghost predicate AgreesBut(db: Db, excepted: set<IntentId>)
    requires Keyed(db)
  {
    forall i <- db.intents :: i !in excepted ==> Agrees(db.intents[i], db.projections[i], Listed(db.settlements, i))
  }

  // ---- events -----------------------------------------------------------------------------------

  function Weight(e: Event, i: IntentId): int {
    if e.intentId != i then 0
    else if e.kind == PaymentConfirmed then 1
    else if e.kind == PaymentReverted then -1
    else 0
  }

  /** Confirmations of the intent minus reversals. */
  function Net(log: seq<Event>, i: IntentId): int {
    if log == [] then 0 else Net(log[..|log| - 1], i) + Weight(log[|log| - 1], i)
  }

  /** Confirmations and reversals take turns, a confirmation first. */
  ghost predicate Alternating(log: seq<Event>, i: IntentId) {
    forall k | 0 <= k <= |log| :: 0 <= Net(log[..k], i) <= 1
  }

  ghost predicate LogFor(db: Db, i: IntentId) {
    && Alternating(db.outbox, i)
    && Net(db.outbox, i) == if i in db.projections && Paid(db.projections[i]) then 1 else 0
  }

  /** Event ids never repeat, and transition ids stay at or below the revision they came from. */
  ghost predicate EventOk(db: Db, e: Event) {
    && e.intentId in db.intents && e.intentId in db.projections
    && e.expected == db.intents[e.intentId].expected
    && (e.kind == PaymentConfirmed ==> e.status in {PAID, PAID_LATE} && e.received >= e.expected)
    && match e.id
       case ObservedId(id) => e.kind == SettlementObserved && e.settlementId == Some(id)
         && FindRow(db.settlements, id).Some?
       case TransitionId(kind, i, revision) =>
         kind == e.kind != SettlementObserved && i == e.intentId && revision <= db.projections[i].revision
  }

  ghost predicate LogOk(db: Db) {
    && (forall e <- db.outbox :: EventOk(db, e))
    && (forall j, k | 0 <= j < k < |db.outbox| :: db.outbox[j].id != db.outbox[k].id)
    && (forall i: IntentId :: LogFor(db, i))
  }

  ghost predicate Inv(db: Db) {
    Keyed(db) && RowsOk(db) && LogOk(db) && AgreesBut(db, {})
  }

  /** Between the upsert and the rebuild of one transaction. */
  ghost predicate InvBut(db: Db, i: IntentId) {
    Keyed(db) && RowsOk(db) && LogOk(db) && AgreesBut(db, {i}) && i in db.intents && db.intents[i].expected > 0
  }

  // ---- Upsert -----------------------------------------------------------------------------------

  lemma {:induction false} FindRowUnchanged(rows: seq<Settlement>, at: Option<nat>, row: Settlement, id: SettlementId)
    requires at == FindRow(rows, row.seen.id) && FindRow(rows, id).Some?
    ensures FindRow(PutRow(rows, at, row), id).Some?
  {
    var k := FindRow(rows, id).value;
    var put := PutRow(rows, at, row);
    assert put[k].seen.id == id;
    assert put[k] in put;
  }

  /** Rows of other intents are listed as before. */
  lemma {:induction false} FilterUntouched(rows: seq<Settlement>, k: nat, row: Settlement, p: Settlement -> bool)
    requires k < |rows| && !p(rows[k]) && !p(row)
    ensures Filter(rows[k := row], p) == Filter(rows, p)
  {
    if k == 0 {
      assert rows[k := row][1..] == rows[1..];
    } else {
      FilterUntouched(rows[1..], k - 1, row, p);
      assert rows[k := row][1..] == rows[1..][k - 1 := row];
    }
  }

  lemma {:induction false} FilterAppend(rows: seq<Settlement>, row: Settlement, p: Settlement -> bool)
    ensures Filter(rows + [row], p) == Filter(rows, p) + if p(row) then [row] else []
  {
    if rows == [] {
      assert rows + [row] == [row] && [row][1..] == [];
    } else {
      assert (rows + [row])[1..] == rows[1..] + [row];
      FilterAppend(rows[1..], row, p);
    }
  }

  lemma ListedUntouched(rows: seq<Settlement>, at: Option<nat>, row: Settlement, j: IntentId)
    requires at.Some? ==> at.value < |rows| && rows[at.value].intentId != Some(j)
    requires row.intentId != Some(j)
    ensures Listed(PutRow(rows, at, row), j) == Listed(rows, j)
  {
    if at.Some? {
      FilterUntouched(rows, at.value, row, ForIntent(j));
    } else {
      FilterAppend(rows, row, ForIntent(j));
      assert Filter(rows, ForIntent(j)) + [] == Filter(rows, ForIntent(j));
    }
  }
}
