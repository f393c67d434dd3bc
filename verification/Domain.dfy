/** The records of src/domain.ts. Identifiers are only compared, so they are numbers; addresses,
    hashes and references are taken after the case folding that the code applies before comparing. */
module Domain {
  import opened Results

  type IntentId = nat
  type Reference = nat
  type Token = nat
  type ChainId = nat
  type TransactionHash = nat

  /** The largest integer that JavaScript numbers represent without gaps. */
  const MAX_SAFE_INTEGER: int := 0x1F_FFFF_FFFF_FFFF

  datatype ChainStatus = OBSERVED | CONFIRMED | FINALIZED | REVERTED
  datatype PoiStatus = UNKNOWN | PENDING | SPENDABLE | BLOCKED
  datatype MatchStatus = UNMATCHED | MATCHED | CONFLICT
  datatype IntentStatus = OPEN | PARTIAL | PAID | EXPIRED | PAID_LATE
  datatype BalanceBucket =
    | Spendable | ShieldBlocked | ShieldPending | ProofSubmitted
    | MissingInternalPOI | MissingExternalPOI | Spent | OtherBucket

  datatype Intent = Intent(
    id: IntentId,
    reference: Reference,
    chainId: ChainId,
    token: Token,
    expected: nat,
    expiresAt: nat,
    createdAt: nat)

  datatype Projection = Projection(
    status: IntentStatus,
    received: nat,
    pending: nat,
    overpayment: nat,
    revision: nat,
    updatedAt: nat)

  /** The settlement id spells out the UTXO it names. */
  datatype SettlementId = SettlementId(
    chainId: ChainId, txidVersion: nat, transactionHash: TransactionHash, tree: nat, position: nat)

  /** Exactly the fields that `assertImmutableIdentity` compares. */
  datatype Identity = Identity(
    chainId: ChainId,
    txidVersion: nat,
    tree: nat,
    position: nat,
    transactionHash: TransactionHash,
    token: Token,
    amount: nat,
    reference: Option<Reference>)
  {
    /** The columns of the UNIQUE constraint on the settlements table. */
    function Utxo(): SettlementId {
      SettlementId(chainId, txidVersion, transactionHash, tree, position)
    }
  }

  /** `NormalizedSettlement`: what one scan reports about one note. */
  datatype Candidate = Candidate(
    id: SettlementId,
    identity: Identity,
    blockNumber: nat,
    blockTimestamp: nat,
    bucket: BalanceBucket,
    chainStatus: ChainStatus,
    poiStatus: PoiStatus)

  /** A row of the settlements table. */
  datatype Settlement = Settlement(
    seen: Candidate,
    matchStatus: MatchStatus,
    intentId: Option<IntentId>,
    firstSeenAt: nat,
    lastSeenAt: nat,
    eligibleAt: Option<nat>)
  {
    function Amount(): nat { seen.identity.amount }
    function Timestamp(): nat { seen.blockTimestamp }
  }

  datatype EventType =
    SettlementObserved | PaymentPartial | PaymentConfirmed | PaymentExpired | PaymentReverted

  /** Dedupe keys are injective in their parts, and event ids are hashes of dedupe keys. */
  datatype EventId =
    | ObservedId(settlement: SettlementId)
    | TransitionId(kind: EventType, intent: IntentId, revision: nat)

  /** The webhook payload. */
  datatype Event = Event(
    id: EventId,
    kind: EventType,
    occurredAt: nat,
    intentId: IntentId,
    settlementId: Option<SettlementId>,
    status: IntentStatus,
    received: nat,
    expected: nat,
    overpayment: nat)
}
