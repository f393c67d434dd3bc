/** What a payer is shown and may do: src/api/payin.ts, src/api/checkout-model.ts and the payable-state checks of
    tools/ppops-payer/src/request.ts, over the tables of the server. */
module CheckoutModel {
  import opened Domain
  import opened Results
  import opened Sums
  import opened ProjectionModel
  import opened Database
  import opened Reconciliation
  import opened ServerInvariant
  import opened ServerFacts

  datatype Stage = AwaitingPayment | PaymentDetected | PrivacyChecksPending | PaymentComplete | ValueReverted

  predicate FinalizedPending(s: Settlement) {
    s.matchStatus == MATCHED && s.seen.chainStatus == FINALIZED && s.seen.poiStatus != SPENDABLE
  }

  /** `paymentStage` over the intent's settlements. */
  function StageOf(intent: Intent, p: Projection, rows: seq<Settlement>): Stage {
    var waiting := SumIf(rows, FinalizedPending);
    if p.status == PAID || p.status == PAID_LATE then PaymentComplete
    else if waiting > 0 && waiting + p.received >= intent.expected then PrivacyChecksPending
    else if p.pending > 0 then PaymentDetected
    else if exists r <- rows :: Reverted(r) then ValueReverted
    else AwaitingPayment
  }

  /** The state fields of a payment request. Older servers leave out the last two. */
  datatype PaymentRequest = PaymentRequest(
    status: IntentStatus, received: nat, pending: nat, amount: nat, expiresAt: nat,
    stage: Option<Stage>, ready: Option<bool>)

  /** GET /pay/:id/request.json */
  function Served(db: Db, i: IntentId, ready: bool): PaymentRequest
    requires i in db.intents && i in db.projections
  {
    var intent, p := db.intents[i], db.projections[i];
    PaymentRequest(p.status, p.received, p.pending, intent.expected, intent.expiresAt,
                   Some(StageOf(intent, p, Listed(db.settlements, i))), Some(ready))
  }

  datatype Title =
    | Complete | CompleteLate | NeedsReview | ConfirmedOnChain | Detected | PartlyPaid | PartlyPaidExpired | Expired
    | Awaiting

  datatype Presentation = Presentation(title: Title, remaining: nat, canPay: bool)

  predicate PaidStatus(s: IntentStatus) { s == PAID || s == PAID_LATE }

  /** The status checks of `verifyCheckoutRequest`. */
  predicate Consistent(q: PaymentRequest) {
    && q.stage.Some? && q.ready.Some?
    && PaidStatus(q.status) == q.stage.value.PaymentComplete?
    && (PaidStatus(q.status) ==> q.received >= q.amount)
  }

  predicate CanPay(q: PaymentRequest, now: real) {
    && !PaidStatus(q.status) && now < q.expiresAt as real && q.pending == 0
    && !(!PaidStatus(q.status) && q.received > 0)
    && q.status == OPEN && q.stage == Some(AwaitingPayment) && q.ready == Some(true)
  }

  /** `checkoutPresentation`: one message, and the button only beside the message that invites to pay. */
  method CheckoutPresentation(q: PaymentRequest, now: real) returns (r: Presentation)
    ensures r.canPay == CanPay(q, now)
    ensures r.canPay ==> r.title == Awaiting && r.remaining == q.amount
    ensures r.title in {Complete, CompleteLate} <==> PaidStatus(q.status)
    ensures r.title in {PartlyPaid, PartlyPaidExpired} ==> 0 < q.received && q.pending == 0 && !PaidStatus(q.status)
    ensures r.title == Awaiting ==> q.received == q.pending == 0 && now < q.expiresAt as real
    ensures r.remaining + q.received >= q.amount && (r.remaining > 0 ==> r.remaining + q.received == q.amount)
    ensures r.title == Complete <==> q.status == PAID
    ensures r.title == CompleteLate <==> q.status == PAID_LATE
    ensures r.title == NeedsReview <==> !PaidStatus(q.status) && q.stage == Some(ValueReverted)
    ensures r.title == ConfirmedOnChain <==> !PaidStatus(q.status) && q.stage == Some(PrivacyChecksPending)
    ensures r.title == Detected <==>
              !PaidStatus(q.status) && q.stage !in {Some(ValueReverted), Some(PrivacyChecksPending)} && q.pending > 0
    ensures r.title in {PartlyPaid, PartlyPaidExpired} <==>
              !PaidStatus(q.status) && q.stage !in {Some(ValueReverted), Some(PrivacyChecksPending)} && q.pending == 0
              && q.received > 0
    ensures r.title == PartlyPaidExpired ==> now >= q.expiresAt as real
    ensures r.title == PartlyPaid ==> now < q.expiresAt as real
    ensures r.title == Expired ==> now >= q.expiresAt as real || q.status == EXPIRED
    ensures r.title == Awaiting ==> q.status != EXPIRED
  {
    var paid := q.status == PAID || q.status == PAID_LATE;
    var expired := now >= q.expiresAt as real;
    var pending := q.pending > 0;
    var partial := !paid && q.received > 0;
    var remaining := if q.amount > q.received then q.amount - q.received else 0;
    var title := Awaiting;
    if q.status == PAID {
      title := Complete;
    } else if q.status == PAID_LATE {
      title := CompleteLate;
    } else if q.stage == Some(ValueReverted) {
      title := NeedsReview;
    } else if q.stage == Some(PrivacyChecksPending) {
      title := ConfirmedOnChain;
    } else if pending {
      title := Detected;
    } else if partial {
      title := if expired then PartlyPaidExpired else PartlyPaid;
    } else if expired || q.status == EXPIRED {
      title := Expired;
    }
    r := Presentation(title, remaining,
      !paid && !expired && !pending && !partial && q.status == OPEN && q.stage == Some(AwaitingPayment)
          && q.ready == Some(true));
  }

  /** The payable-state conditions of `verifyPaymentRequest`. */
  predicate PayerAccepts(q: PaymentRequest, now: nat) {
    && q.status == OPEN && q.received == 0 && q.pending == 0 && q.expiresAt > now
    && q.ready != Some(false)
    && (q.stage.None? || q.stage == Some(AwaitingPayment))
  }

  // ---- Facts ------------------------------------------------------------------------------------

  ghost predicate Unpaid(db: Db, i: IntentId) { forall r <- db.settlements :: r.intentId != Some(i) }

  ghost predicate OnlyReversals(db: Db, i: IntentId) {
    forall r <- db.settlements :: r.intentId == Some(i) ==> Reverted(r)
  }

  /** The rows of an intent as its projection sums them up. */
  lemma RowsOfIntent(db: Db, i: IntentId)
    requires Inv(db) && i in db.intents
    ensures var rows := Listed(db.settlements, i);
            && (forall r :: r in rows <==> r in db.settlements && r.intentId == Some(i))
            && (forall r <- rows :: r.Amount() > 0 && r.matchStatus == MATCHED)
            && db.projections[i].received == SumIf(rows, Creditable)
            && db.projections[i].pending == SumIf(rows, Pending)
  {
    forall r: Settlement ensures r in Listed(db.settlements, i) <==> r in db.settlements && r.intentId == Some(i) {
      ListedMember(db.settlements, i, r);
    }
    assert Agrees(db.intents[i], db.projections[i], Listed(db.settlements, i));
    hide LogOk, Agrees, Listed;
    forall r <- db.settlements ensures RowOk(db, r) {}
  }

  /** Nothing credited and nothing pending: whatever was matched has been reverted. */
  lemma NothingLeft(db: Db, i: IntentId)
    requires Inv(db) && i in db.intents
    ensures db.projections[i].received == 0 && db.projections[i].pending == 0 <==> OnlyReversals(db, i)
  {
    RowsOfIntent(db, i);
    var rows := Listed(db.settlements, i);
    hide Inv, Listed;
    SumIfZero(rows, Creditable);
    SumIfZero(rows, Pending);
    assert forall r <- rows :: Creditable(r) || Pending(r) || Reverted(r);
  }

  lemma WaitingIsPending(rows: seq<Settlement>)
    ensures SumIf(rows, FinalizedPending) <= SumIf(rows, Pending)
  {
    SumIfMonotone(rows, FinalizedPending, Pending);
  }

  lemma StageMeansHere(intent: Intent, p: Projection, rows: seq<Settlement>)
    requires forall r <- rows :: r.Amount() > 0 && r.matchStatus == MATCHED
    requires p.received == SumIf(rows, Creditable) && p.pending == SumIf(rows, Pending)
    requires Paid(p) <==> p.received >= intent.expected
    ensures var stage := StageOf(intent, p, rows);
            && (stage == PaymentComplete <==> p.received >= intent.expected)
            && (stage == PrivacyChecksPending <==>
                  p.received < intent.expected <= p.received + SumIf(rows, FinalizedPending))
            && (stage in {ValueReverted, AwaitingPayment} <==> p.received < intent.expected && p.pending == 0)
            && (stage == AwaitingPayment <==> p.received < intent.expected && forall r <- rows :: Creditable(r))
  {
    WaitingIsPending(rows);
    SumIfZero(rows, Pending);
    assert forall r <- rows :: Creditable(r) || Pending(r) || Reverted(r);
    assert forall r <- rows :: Creditable(r) ==> !Pending(r) && !Reverted(r);
  }

  /** What each stage means in terms of stored value. */
  lemma StageMeans(db: Db, i: IntentId)
    requires Inv(db) && i in db.intents
    ensures var intent, p, rows := db.intents[i], db.projections[i], Listed(db.settlements, i);
            var stage := StageOf(intent, p, rows);
            && (stage == PaymentComplete <==> p.received >= intent.expected)
            && (stage == PrivacyChecksPending <==>
                  p.received < intent.expected <= p.received + SumIf(rows, FinalizedPending))
            && (stage in {ValueReverted, AwaitingPayment} <==> p.received < intent.expected && p.pending == 0)
            && (stage == AwaitingPayment <==>
                  p.received < intent.expected && forall r <- db.settlements :: r.intentId == Some(i) ==> Creditable(r))
  {
    RowsOfIntent(db, i);
    StatusFollowsAmounts(db, i);
    hide Inv, Listed, StageOf, Creditable, FinalizedPending;
    StageMeansHere(db.intents[i], db.projections[i], Listed(db.settlements, i));
  }

  /** What a served request says: the stored status and amounts, the expected amount and the expiry of the intent. */
  lemma ServedTells(db: Db, i: IntentId, ready: bool)
    requires Inv(db) && i in db.intents
    ensures var q := Served(db, i, ready);
            && q.status == db.projections[i].status && q.amount == db.intents[i].expected
            && q.expiresAt == db.intents[i].expiresAt && q.ready == Some(ready)
            && q.received == SumIf(db.settlements, Of(i, Creditable))
                 && q.pending == SumIf(db.settlements, Of(i, Pending))
            && (q.stage == Some(PaymentDetected) <==>
                  && q.received < q.amount && q.pending > 0
                  && q.received + SumIf(Listed(db.settlements, i), FinalizedPending) < q.amount)
  {
    AmountsAreSums(db, i);
    StageMeans(db, i);
    hide Inv, Listed, StageOf;
  }

  /** Every request the server serves passes the browser's consistency check. */
  lemma ServedIsConsistent(db: Db, i: IntentId, ready: bool)
    requires Inv(db) && i in db.intents
    ensures Consistent(Served(db, i, ready))
  {
    StatusFollowsAmounts(db, i);
    StageMeans(db, i);
    hide Inv, Listed, StageOf;
  }

  /** The page lets a visitor pay exactly when no settlement at all is matched to the intent, and the request is open,
      in time and the server is ready. */
  lemma CanPayIff(db: Db, i: IntentId, ready: bool, now: real)
    requires Inv(db) && i in db.intents
    ensures CanPay(Served(db, i, ready), now)
       <==> Unpaid(db, i) && db.projections[i].status == OPEN && now < db.intents[i].expiresAt as real && ready
  {
    AwaitingIff(db, i);
    hide Inv, Listed, StageOf;
  }

  lemma AwaitingIff(db: Db, i: IntentId)
    requires Inv(db) && i in db.intents
    ensures var p, stage := db.projections[i], StageOf(db.intents[i], db.projections[i], Listed(db.settlements, i));
            (p.status == OPEN && p.received == 0 && p.pending == 0 && stage == AwaitingPayment
             <==> p.status == OPEN && Unpaid(db, i))
  {
    StageMeans(db, i);
    NothingLeft(db, i);
    StatusFollowsAmounts(db, i);
    hide Inv, Listed, StageOf;
    forall r <- db.settlements | r.intentId == Some(i) ensures !(Creditable(r) && Reverted(r)) {}
  }

  /** The payer accepts a request with a stage under the same condition. */
  lemma PayerAcceptsIff(db: Db, i: IntentId, ready: bool, now: nat)
    requires Inv(db) && i in db.intents
    ensures PayerAccepts(Served(db, i, ready), now)
       <==> Unpaid(db, i) && db.projections[i].status == OPEN && now < db.intents[i].expiresAt && ready
  {
    AwaitingIff(db, i);
    hide Inv, Listed, StageOf;
  }

  /** Without the stage field the check is weaker: reversed settlements go unnoticed. */
  lemma PayerAcceptsWithoutStageIff(db: Db, i: IntentId, ready: bool, now: nat)
    requires Inv(db) && i in db.intents
    ensures PayerAccepts(Served(db, i, ready).(stage := None), now)
       <==> OnlyReversals(db, i) && db.projections[i].status == OPEN && now < db.intents[i].expiresAt && ready
  {
    NothingLeft(db, i);
    hide Inv, Listed, StageOf;
  }

  lemma ReadyIsAssumed(q: PaymentRequest, now: nat)
    ensures PayerAccepts(q.(ready := None), now) <==> PayerAccepts(q.(ready := Some(true)), now)
  {
  }

  lemma ServedReady(db: Db, i: IntentId, ready: bool)
    requires i in db.intents && i in db.projections
    ensures Served(db, i, ready).(ready := Some(true)) == Served(db, i, true)
  {
  }

  /** A request of a server that does not tell whether it is ready is accepted as one of a server that is. */
  lemma PayerAcceptsWithoutReadyIff(db: Db, i: IntentId, ready: bool, now: nat)
    requires Inv(db) && i in db.intents
    ensures PayerAccepts(Served(db, i, ready).(ready := None), now)
       <==> Unpaid(db, i) && db.projections[i].status == OPEN && now < db.intents[i].expiresAt
  {
    hide *;
    PayerAcceptsIff(db, i, true, now);
    IntentHasProjection(db, i);
    ServedReady(db, i, ready);
    ReadyIsAssumed(Served(db, i, ready), now);
  }

  lemma IntentHasProjection(db: Db, i: IntentId)
    requires Inv(db) && i in db.intents
    ensures i in db.projections
  {
    hide RowsOk, LogOk, AgreesBut;
  }
}
