/** What `Inv` says to a reader of the tables. */
module ServerFacts {
  import opened Domain
  import opened Results
  import opened Sums
  import opened ProjectionModel
  import opened CrossingFacts
  import opened Database
  import opened Reconciliation
  import opened ServerInvariant
  import opened ServerSteps

  function Of(i: IntentId, p: Settlement -> bool): Settlement -> bool {
    (r: Settlement) => r.intentId == Some(i) && p(r)
  }

  lemma ListedSum(rows: seq<Settlement>, i: IntentId, p: Settlement -> bool)
    ensures SumIf(Listed(rows, i), p) == SumIf(rows, Of(i, p))
  {
    SumIfPermutation(Filter(rows, ForIntent(i)), Listed(rows, i), p);
    SumFilter(rows, ForIntent(i), p, Of(i, p));
  }

  lemma ListedMember(rows: seq<Settlement>, i: IntentId, row: Settlement)
    ensures row in Listed(rows, i) <==> row in rows && row.intentId == Some(i)
  {
    assert row in Listed(rows, i) <==> row in multiset(Listed(rows, i));
    assert row in Filter(rows, ForIntent(i)) <==> row in multiset(Filter(rows, ForIntent(i)));
  }

  function Live(r: Settlement): bool { Creditable(r) || Pending(r) }

  /** No matched value is lost: each matched row is creditable, pending or reverted. */
  lemma MatchedValueIsConserved(rows: seq<Settlement>, i: IntentId)
    requires forall row <- rows :: row.intentId.Some? <==> row.matchStatus == MATCHED
    ensures SumIf(rows, Of(i, Creditable)) + SumIf(rows, Of(i, Pending)) + SumIf(rows, Of(i, Reverted))
         == SumIf(rows, Of(i, Any))
  {
    forall r <- rows
      ensures !(Of(i, Creditable)(r) && Of(i, Pending)(r)) && !(Of(i, Live)(r) && Of(i, Reverted)(r))
      ensures Of(i, Live)(r) <==> Of(i, Creditable)(r) || Of(i, Pending)(r)
      ensures Of(i, Any)(r) <==> Of(i, Live)(r) || Of(i, Reverted)(r)
    {
      assert Of(i, Creditable)(r) == (r.intentId == Some(i) && Creditable(r));
      assert Of(i, Pending)(r) == (r.intentId == Some(i) && Pending(r));
      assert Of(i, Reverted)(r) == (r.intentId == Some(i) && Reverted(r));
      assert Of(i, Live)(r) == (r.intentId == Some(i) && Live(r));
      assert Of(i, Any)(r) == (r.intentId == Some(i) && Any(r));
    }
    SumIfSplit(rows, Of(i, Creditable), Of(i, Pending), Of(i, Live));
    SumIfSplit(rows, Of(i, Live), Of(i, Reverted), Of(i, Any));
  }

  /** The stored amounts are sums over the settlements table, whatever order the table is in. */
  lemma AmountsAreSums(db: Db, i: IntentId)
    requires Inv(db) && i in db.intents
    ensures var p := db.projections[i];
            && p.received == SumIf(db.settlements, Of(i, Creditable))
            && p.pending == SumIf(db.settlements, Of(i, Pending))
            && p.received + p.pending + SumIf(db.settlements, Of(i, Reverted)) == SumIf(db.settlements, Of(i, Any))
  {
    assert Agrees(db.intents[i], db.projections[i], Listed(db.settlements, i));
    ListedSum(db.settlements, i, Creditable);
    ListedSum(db.settlements, i, Pending);
    assert forall row <- db.settlements :: RowOk(db, row) ==> (row.intentId.Some? <==> row.matchStatus == MATCHED);
    MatchedValueIsConserved(db.settlements, i);
  }

  lemma AgreedStatus(intent: Intent, p: Projection, account: seq<Settlement>)
    requires Agrees(intent, p, account)
    ensures && (Paid(p) <==> p.received >= intent.expected)
            && (p.status == PARTIAL <==> 0 < p.received < intent.expected)
            && (p.status in {OPEN, EXPIRED} <==> p.received == 0)
            && p.overpayment == if p.received > intent.expected then p.received - intent.expected else 0
  {
    hide Crossing, Ordered;
  }

  /** The stored status is decided by the stored amounts, except for the two late/early variants. */
  lemma StatusFollowsAmounts(db: Db, i: IntentId)
    requires Inv(db) && i in db.intents
    ensures var p, expected := db.projections[i], db.intents[i].expected;
            && (Paid(p) <==> p.received >= expected)
            && (p.status == PARTIAL <==> 0 < p.received < expected)
            && (p.status in {OPEN, EXPIRED} <==> p.received == 0)
            && p.overpayment == if p.received > expected then p.received - expected else 0
  {
    hide Agrees, Listed, RowsOk, LogOk;
    AgreedStatus(db.intents[i], db.projections[i], Listed(db.settlements, i));
  }

  lemma AgreedCrossing(intent: Intent, p: Projection, account: seq<Settlement>) returns (k: Settlement)
    requires Agrees(intent, p, account) && Paid(p)
    ensures k in account && Creditable(k) && Cut(Filter(account, Creditable), intent.expected, k)
    ensures p.status == PAID <==> k.Timestamp() <= intent.expiresAt
  {
    var creditable := Filter(account, Creditable);
    SumFilter(account, Creditable, Any, Creditable);
    k := CrossingIsCut(creditable, intent.expected, 0);
    SumIfPermutation(creditable, Ordered(creditable), Any);
    FallbackUnused(Ordered(creditable), intent.expected, 0, 0, intent.expiresAt);
  }

  /** A PAID intent has a creditable settlement, stamped at or before expiry, up to whose place on chain
      the creditable settlements cover the expected amount; a PAID_LATE one has its crossing later. */
  lemma PaidHasCrossing(db: Db, i: IntentId) returns (k: Settlement)
    requires Inv(db) && i in db.intents && Paid(db.projections[i])
    ensures k in db.settlements && k.intentId == Some(i) && Creditable(k)
    ensures Cut(Filter(Listed(db.settlements, i), Creditable), db.intents[i].expected, k)
    ensures db.projections[i].status == PAID <==> k.Timestamp() <= db.intents[i].expiresAt
  {
    k := AgreedCrossing(db.intents[i], db.projections[i], Listed(db.settlements, i));
    ListedMember(db.settlements, i, k);
  }

  // ---- The event log ----------------------------------------------------------------------------

  predicate Is(e: Event, kind: EventType, i: IntentId) { e.kind == kind && e.intentId == i }

  /** Without a reversal the balance does not fall, without a confirmation it does not rise. */
  lemma {:induction false} NetBetween(log: seq<Event>, i: IntentId, a: nat, b: nat)
    requires a <= b <= |log|
    ensures (forall k | a <= k < b :: !Is(log[k], PaymentReverted, i)) ==> Net(log[..b], i) >= Net(log[..a], i)
    ensures (forall k | a <= k < b :: !Is(log[k], PaymentConfirmed, i)) ==> Net(log[..b], i) <= Net(log[..a], i)
  {
    if a < b {
      NetBetween(log, i, a, b - 1);
      assert log[..b][..b - 1] == log[..b - 1];
    }
  }

  lemma NetStep(log: seq<Event>, i: IntentId, k: nat)
    requires k < |log|
    ensures Net(log[..k + 1], i) == Net(log[..k], i) + Weight(log[k], i)
  {
    assert log[..k + 1][..k] == log[..k];
  }

  /** Between any two confirmations of one intent lies a reversal, between any two reversals a confirmation, and
      before every reversal, wherever it stands, a confirmation. */
  ghost predicate TakeTurns(log: seq<Event>, i: IntentId) {
    && (forall a: nat, b: nat | a < b < |log| && Is(log[a], PaymentConfirmed, i) && Is(log[b], PaymentConfirmed, i) ::
          exists k | a < k < b :: Is(log[k], PaymentReverted, i))
    && (forall a: nat, b: nat | a < b < |log| && Is(log[a], PaymentReverted, i) && Is(log[b], PaymentReverted, i) ::
          exists k | a < k < b :: Is(log[k], PaymentConfirmed, i))
    && forall b: nat | b < |log| && Is(log[b], PaymentReverted, i) ::
         exists k | 0 <= k < b :: Is(log[k], PaymentConfirmed, i)
  }

  lemma PairTakesTurns(log: seq<Event>, i: IntentId, a: nat, b: nat)
    requires Alternating(log, i) && a < b < |log|
    ensures Is(log[a], PaymentConfirmed, i) && Is(log[b], PaymentConfirmed, i) ==>
              exists k | a < k < b :: Is(log[k], PaymentReverted, i)
    ensures Is(log[a], PaymentReverted, i) && Is(log[b], PaymentReverted, i) ==>
              exists k | a < k < b :: Is(log[k], PaymentConfirmed, i)
  {
    NetStep(log, i, a);
    NetStep(log, i, b);
    NetBetween(log, i, a + 1, b);
  }

  lemma ReversalFollowsConfirmation(log: seq<Event>, i: IntentId, b: nat)
    requires Alternating(log, i) && b < |log| && Is(log[b], PaymentReverted, i)
    ensures exists k | 0 <= k < b :: Is(log[k], PaymentConfirmed, i)
  {
    NetStep(log, i, b);
    NetBetween(log, i, 0, b);
    assert log[..0] == [];
  }

  lemma ConfirmationsAndReversalsTakeTurns(db: Db, i: IntentId)
    requires Inv(db)
    ensures TakeTurns(db.outbox, i)
  {
    var log := db.outbox;
    assert LogFor(db, i);
    hide Inv, Alternating, Is;
    forall a: nat, b: nat | a < b < |log| && Is(log[a], PaymentConfirmed, i) && Is(log[b], PaymentConfirmed, i)
      ensures exists k | a < k < b :: Is(log[k], PaymentReverted, i)
    {
      PairTakesTurns(log, i, a, b);
    }
    forall a: nat, b: nat | a < b < |log| && Is(log[a], PaymentReverted, i) && Is(log[b], PaymentReverted, i)
      ensures exists k | a < k < b :: Is(log[k], PaymentConfirmed, i)
    {
      PairTakesTurns(log, i, a, b);
    }
    forall b: nat | b < |log| && Is(log[b], PaymentReverted, i)
      ensures exists k | 0 <= k < b :: Is(log[k], PaymentConfirmed, i)
    {
      ReversalFollowsConfirmation(log, i, b);
    }
  }

  function Count(log: seq<Event>, kind: EventType, i: IntentId): nat {
    if log == [] then 0
    else Count(log[..|log| - 1], kind, i) + if Is(log[|log| - 1], kind, i) then 1 else 0
  }

  lemma {:induction false} NetCounts(log: seq<Event>, i: IntentId)
    ensures Net(log, i) == Count(log, PaymentConfirmed, i) - Count(log, PaymentReverted, i)
  {
    if log != [] { NetCounts(log[..|log| - 1], i); }
  }

  /** There is one more confirmation than reversal exactly while the intent counts as paid. */
  lemma ConfirmedExactlyWhilePaid(db: Db, i: IntentId)
    requires Inv(db) && i in db.intents
    ensures Count(db.outbox, PaymentConfirmed, i)
         == Count(db.outbox, PaymentReverted, i) + if Paid(db.projections[i]) then 1 else 0
  {
    assert LogFor(db, i);
    NetCounts(db.outbox, i);
  }

  /** INSERT OR IGNORE never drops a transition event: what a rebuild wants to record, it appends. */
  lemma RebuildRecords(db: Db, i: IntentId, now: nat, settlement: Option<SettlementId>)
    requires InvBut(db, i)
    ensures var after := RebuildTx(db, i, now, settlement);
            var kind := TransitionEvent(db.projections[i], after.projections[i]);
            after.outbox == db.outbox +
              if kind.None? then []
              else [EventOf(TransitionId(kind.value, i, db.projections[i].revision + 1), kind.value,
                            db.intents[i], after.projections[i], now, settlement)]
  {
    hide AgreesBut, RowsOk, LogOk, Listed, InsertEvent;
    var next := Derive(db.intents[i], Listed(db.settlements, i), db.projections[i], now);
    if next.revision != db.projections[i].revision {
      CommitKeepsLog(db, i, next, now, settlement);
    }
  }
}
