/** How large the journal file is, and when it can be read back: `write` stores
    `JSON.stringify(parsed, null, 2)` and a newline without looking at the size, and `read` refuses a file over two
    mebibytes. */
module JournalSize {
  import opened Results
  import opened JournalModel

  const FILE_LIMIT: nat := 2 * 1_024 * 1_024

  /** Every RAILGUN address that passes validation has this many characters. */
  const ADDRESS_LENGTH: nat := 127

  function Digits(n: nat): (d: nat)
    ensures d >= 1
  {
    if n < 10 then 1 else 1 + Digits(n / 10)
  }

  function Quoted(length: nat): nat { length + 2 }

  const INTENT_ID: nat := Quoted(35)
  const FINGERPRINT: nat := Quoted(64)
  const HASH: nat := Quoted(66)
  const EVM_ADDRESS: nat := Quoted(42)
  const RAILGUN_ADDRESS: nat := Quoted(ADDRESS_LENGTH)

  function RejectionText(code: RejectionCode): string {
    match code
    case BadTokenFee => "BAD_TOKEN_FEE"
    case FailedQuorum => "FAILED_QUORUM"
    case GasPriceTooLow => "GAS_PRICE_TOO_LOW"
    case GasEstimateError => "GAS_ESTIMATE_ERROR"
    case GasEstimateRevert => "GAS_ESTIMATE_REVERT"
    case RejectedPackagedFee => "REJECTED_PACKAGED_FEE"
    case FailedToExtractPackagedFee => "FAILED_TO_EXTRACT_PACKAGED_FEE"
    case BroadcasterOutOfGas => "BROADCASTER_OUT_OF_GAS"
    case PoiInvalid => "POI_INVALID"
    case UnsupportedNetwork => "UNSUPPORTED_NETWORK"
    case MissingRequiredField => "MISSING_REQUIRED_FIELD"
    case NoBroadcasterFee => "NO_BROADCASTER_FEE"
  }

  function AmbiguityText(code: AmbiguityCode): string {
    match code
    case TransactionSendTimeout => "TRANSACTION_SEND_TIMEOUT"
    case TransactionSendRpcError => "TRANSACTION_SEND_RPC_ERROR"
    case RepeatTransaction => "REPEAT_TRANSACTION"
    case NoteAlreadySpent => "NOTE_ALREADY_SPENT"
    case TransactionUnderpriced => "TRANSACTION_UNDERPRICED"
    case NonceAlreadyUsed => "NONCE_ALREADY_USED"
    case UnknownError => "UNKNOWN_ERROR"
    case MissingResponse => "MISSING_RESPONSE"
    case BadResponse => "BAD_RESPONSE"
    case WakuRequestTimeout => "WAKU_REQUEST_TIMEOUT"
    case InvalidTransactionHash => "INVALID_TRANSACTION_HASH"
    case UnclassifiedFailure => "UNCLASSIFIED_FAILURE"
  }

  function ModeText(mode: Mode): string {
    match mode
    case SELF_SIGNED => "SELF_SIGNED"
    case BROADCASTER => "BROADCASTER"
  }

  function StatusText(status: Status): string {
    match status
    case SUBMITTING => "SUBMITTING"
    case SUBMITTED => "SUBMITTED"
    case MINED => "MINED"
    case REVERTED => "REVERTED"
    case REJECTED => "REJECTED"
  }

  function OutcomeText(outcome: AttemptOutcome): string {
    match outcome
    case RESERVED => "RESERVED"
    case Rejected(_) => "REJECTED"
    case Ambiguous(_) => "AMBIGUOUS"
    case REPORTED => "REPORTED"
  }

  /** A line with a property: indentation, quoted key, colon, blank, value, comma, newline. */
  function Line(indent: nat, key: string, value: nat): nat { indent + |key| + value + 6 }

  function Field(key: string, value: nat): nat { Line(6, key, value) }

  function OptionalField(key: string, value: Option<nat>): nat { if value.Some? then Field(key, value.value) else 0 }

  /** An array of one-line or nested items inside a record. */
  function ListSize(items: nat, content: nat): nat { if items == 0 then 2 else 8 + 10 * items + content }

  function CodesSize(codes: seq<AmbiguityCode>): nat {
    if codes == [] then 0 else CodesSize(codes[..|codes| - 1]) + Quoted(|AmbiguityText(codes[|codes| - 1])|)
  }

  /** The last line of an object has no comma. */
  function AttemptSize(a: Attempt): nat {
    10
    + Line(10, "broadcasterRailgunAddress", RAILGUN_ADDRESS)
    + Line(10, "broadcasterQuoteFingerprint", FINGERPRINT)
    + Line(10, "broadcasterFeesIDFingerprint", FINGERPRINT)
    + Line(10, "broadcasterFeeAmountAtomic", Quoted(Digits(a.fee)))
    + Line(10, "outcome", Quoted(|OutcomeText(a.outcome)|))
    + (if a.outcome.Rejected? then Line(10, "rejectionCode", Quoted(|RejectionText(a.outcome.code)|)) else 0)
    + (if a.outcome.Ambiguous? then Line(10, "ambiguityCode", Quoted(|AmbiguityText(a.outcome.ambiguity)|)) else 0)
    + Line(10, "createdAt", Digits(a.createdAt))
    + Line(10, "updatedAt", Digits(a.updatedAt))
  }

  function AttemptsSize(attempts: seq<Attempt>): nat {
    if attempts == [] then 0 else AttemptsSize(attempts[..|attempts| - 1]) + AttemptSize(attempts[|attempts| - 1])
  }

  function If<T>(value: Option<T>, size: nat): Option<nat> { if value.Some? then Some(size) else None }

  /** The properties of every record. */
  function CommonSize(r: Record): nat {
    6
    + Field("intentId", INTENT_ID)
    + Field("requestFingerprint", FINGERPRINT)
    + Field("submissionMode", Quoted(|ModeText(r.mode)|))
    + Field("status", Quoted(|StatusText(r.status)|))
    + Field("createdAt", Digits(r.createdAt))
    + Field("updatedAt", Digits(r.updatedAt))
  }

  /** The properties that a record need not have. */
  function OptionalSize(r: Record): nat {
    OptionalField("selfSigner", If(r.selfSigner, EVM_ADDRESS))
    + OptionalField("payerRailgunAddress", If(r.payer, RAILGUN_ADDRESS))
    + OptionalField("broadcasterRailgunAddress", If(r.broadcaster, RAILGUN_ADDRESS))
    + OptionalField("broadcasterQuoteFingerprint", If(r.quote, FINGERPRINT))
    + OptionalField("broadcasterFeesIDFingerprint", If(r.feesID, FINGERPRINT))
    + OptionalField("broadcasterFeeAmountAtomic", If(r.fee, if r.fee.Some? then Quoted(Digits(r.fee.value)) else 0))
    + OptionalField("nullifiers", If(r.nullifiers, ListSize(|r.Nullifiers()|, HASH * |r.Nullifiers()|)))
    + OptionalField("broadcasterRetryAttempts", If(r.retries, ListSize(|r.Retries()|, AttemptsSize(r.Retries()))))
    + OptionalField("broadcasterAmbiguityCodes", If(r.ambiguity, ListSize(|r.Codes()|, CodesSize(r.Codes()))))
    + OptionalField("reportedTransactionHash", If(r.reported, HASH))
    + OptionalField("rejectionCode", if r.rejection.Some? then Some(Quoted(|RejectionText(r.rejection.value)|))
        else None)
    + OptionalField("nonce", if r.nonce.Some? then Some(Digits(r.nonce.value)) else None)
    + OptionalField("transactionHash", If(r.hash, HASH))
    + OptionalField("blockNumber", if r.blockNumber.Some? then Some(Digits(r.blockNumber.value)) else None)
  }

  function RecordSize(r: Record): nat { CommonSize(r) + OptionalSize(r) }

  /** The records with the indentation and the separator of each. */
  function RecordsSize(j: Journal): nat {
    if j == [] then 0 else RecordsSize(j[..|j| - 1]) + 6 + RecordSize(j[|j| - 1])
  }

  function FileSize(j: Journal): nat { if j == [] then 42 else 44 + RecordsSize(j) }

  /** `readOwnerOnlyFile` does not refuse the file for its size. */
  predicate Readable(j: Journal) { FileSize(j) <= FILE_LIMIT }

  /** Every operation of the journal reads it first. */
  function Reading(j: Journal, result: Result<Journal, JournalError>): Result<Journal, JournalError> {
    if Readable(j) then result else Thrown(FileTooLarge)
  }

  // ---- Bounds -----------------------------------------------------------------------------------

  lemma RecordIsLarge(r: Record)
    ensures RecordSize(r) >= 250
  {
    hide OptionalSize;
    assert |"intentId"| == 8 && |"requestFingerprint"| == 18 && |"submissionMode"| == 14;
    assert |ModeText(r.mode)| == 11;
  }

  lemma {:induction false} RecordsAreLarge(j: Journal)
    ensures RecordsSize(j) >= 256 * |j|
  {
    hide RecordSize;
    if j != [] {
      RecordsAreLarge(j[..|j| - 1]);
      RecordIsLarge(j[|j| - 1]);
    }
  }

  /** The read limit is reached long before the schema's limit on the number of records. */
  lemma ReadableIsBelowCapacity(j: Journal)
    requires Readable(j)
    ensures |j| <= FILE_LIMIT / 256 < MAX_RECORDS
  {
    RecordsAreLarge(j);
  }
}
