/** The payer's write-ahead journal, tools/ppops-payer/src/security/submission-journal.ts. */
module JournalModel {
  import opened Results
  import opened Sequences

  // Identifiers are compared after lower-casing, so they are numbers here.
  type IntentId = nat
  type Nullifier = nat
  type RailgunAddress = nat
  type EvmAddress = nat
  type Hash = nat

  const ZERO_NULLIFIER: Nullifier := 0
  const MAX_NULLIFIERS: nat := 64
  const MAX_RETRIES: nat := 3
  const MAX_AMBIGUITY_CODES: nat := 4
  const MAX_RECORDS: nat := 10_000

  datatype RejectionCode =
    | BadTokenFee | FailedQuorum | GasPriceTooLow | GasEstimateError | GasEstimateRevert | RejectedPackagedFee
    | FailedToExtractPackagedFee | BroadcasterOutOfGas | PoiInvalid | UnsupportedNetwork | MissingRequiredField
    | NoBroadcasterFee

  datatype AmbiguityCode =
    | TransactionSendTimeout | TransactionSendRpcError | RepeatTransaction | NoteAlreadySpent
    | TransactionUnderpriced | NonceAlreadyUsed | UnknownError | MissingResponse | BadResponse
    | WakuRequestTimeout | InvalidTransactionHash | UnclassifiedFailure

  /** Hash of the intent id and the merchant's signature. */
  datatype RequestFingerprint = RequestFingerprint(intent: IntentId, signature: nat)

  /** The fee rate as the Broadcaster wrote it: `BigInt` reads several spellings of one value, or fails. */
  datatype FeeText = Unreadable(text: nat) | Amount(value: int, spelling: nat)

  /** Hash of the identity, token, fee id, fee rate text and expiration of a quote. */
  datatype QuoteFingerprint = QuoteFingerprint(
    broadcaster: RailgunAddress, token: nat, feesID: nat, feePerUnitGas: FeeText, expiration: int)

  datatype Request = Request(id: IntentId, signature: nat)
  {
    function Fingerprint(): RequestFingerprint { RequestFingerprint(id, signature) }
  }

  datatype Mode = SELF_SIGNED | BROADCASTER
  datatype Status = SUBMITTING | SUBMITTED | MINED | REVERTED | REJECTED
  datatype AttemptOutcome = RESERVED | Rejected(code: RejectionCode) | Ambiguous(ambiguity: AmbiguityCode) | REPORTED

  /** The schema ties the two code fields of an attempt to its outcome; here the outcome carries the code. */
  datatype Attempt = Attempt(
    broadcaster: RailgunAddress, quote: QuoteFingerprint, feesID: nat, fee: nat, outcome: AttemptOutcome,
    createdAt: nat, updatedAt: nat)

  datatype Record = Record(
    intentId: IntentId,
    fingerprint: RequestFingerprint,
    mode: Mode,
    selfSigner: Option<EvmAddress>,
    payer: Option<RailgunAddress>,
    broadcaster: Option<RailgunAddress>,
    quote: Option<QuoteFingerprint>,
    feesID: Option<nat>,
    fee: Option<nat>,
    nullifiers: Option<seq<Nullifier>>,
    retries: Option<seq<Attempt>>,
    ambiguity: Option<seq<AmbiguityCode>>,
    reported: Option<Hash>,
    rejection: Option<RejectionCode>,
    status: Status,
    nonce: Option<nat>,
    hash: Option<Hash>,
    blockNumber: Option<nat>,
    createdAt: nat,
    updatedAt: nat)
  {
    function Retries(): seq<Attempt> { if retries.Some? then retries.value else [] }
    function Codes(): seq<AmbiguityCode> { if ambiguity.Some? then ambiguity.value else [] }
    function Nullifiers(): seq<Nullifier> { if nullifiers.Some? then nullifiers.value else [] }
  }

  // ---- Nullifier sets ---------------------------------------------------------------------------

  /** `normalizedNullifiers` */
  function Normalized(ns: seq<Nullifier>): (r: seq<Nullifier>)
    ensures multiset(r) == multiset(ns)
  {
    if ns == [] then []
    else
      assert ns == [ns[0]] + ns[1..];
      InsertInOrder(ns[0], Normalized(ns[1..]))
  }

  lemma {:induction false} NormalizedAscending(ns: seq<Nullifier>)
    ensures Ascending(Normalized(ns))
  {
    if ns != [] {
      NormalizedAscending(ns[1..]);
      InsertAscending(ns[0], Normalized(ns[1..]));
    }
  }

  /** `sameNullifierSet` */
  predicate SameNullifierSet(left: seq<Nullifier>, right: seq<Nullifier>) {
    Normalized(left) == Normalized(right)
  }

  lemma HeadIsLeast(a: seq<Nullifier>, b: seq<Nullifier>)
    requires Ascending(a) && a != [] && b != [] && b[0] in multiset(a)
    ensures a[0] <= b[0]
  {
    var k :| 0 <= k < |a| && a[k] == b[0];
  }

  lemma WithoutHead(a: seq<Nullifier>)
    requires a != []
    ensures multiset(a[1..]) == multiset(a) - multiset{a[0]}
  {
    assert a == [a[0]] + a[1..];
  }

  lemma LeastFirst(a: seq<Nullifier>, b: seq<Nullifier>)
    requires Ascending(a) && Ascending(b) && multiset(a) == multiset(b) && a != []
    ensures b != [] && a[0] == b[0] && multiset(a[1..]) == multiset(b[1..])
  {
    assert a[0] in multiset(b);
    hide Ascending;
    assert b[0] in multiset(a);
    HeadIsLeast(a, b);
    HeadIsLeast(b, a);
    WithoutHead(a);
    WithoutHead(b);
  }

  lemma {:induction false} AscendingUnique(a: seq<Nullifier>, b: seq<Nullifier>)
    requires Ascending(a) && Ascending(b) && multiset(a) == multiset(b)
    ensures a == b
  {
    if a == [] {
      assert |multiset(b)| == |b|;
    } else {
      LeastFirst(a, b);
      AscendingUnique(a[1..], b[1..]);
    }
  }

  /** Sorting and comparing element by element decides equality as multisets. */
  lemma SameNullifierSetIff(left: seq<Nullifier>, right: seq<Nullifier>)
    ensures SameNullifierSet(left, right) <==> multiset(left) == multiset(right)
  {
    NormalizedAscending(left);
    NormalizedAscending(right);
    if multiset(left) == multiset(right) { AscendingUnique(Normalized(left), Normalized(right)); }
  }

  predicate Disjoint(a: seq<Nullifier>, b: seq<Nullifier>) { forall n <- a :: n !in b }

  /** A Broadcaster record whose message might still be mined. */
  predicate Active(r: Record) { r.mode == BROADCASTER && r.status != REJECTED && r.status != REVERTED }

  /** `hasActiveBroadcasterNullifierConflict` */
  predicate Conflicts(records: seq<Record>, id: IntentId, ns: seq<Nullifier>) {
    exists r <- records :: r.intentId != id && Active(r) && !Disjoint(r.Nullifiers(), Normalized(ns))
  }

  // ---- The schema -------------------------------------------------------------------------------

  predicate UniqueNonzero(ns: seq<Nullifier>) {
    (forall n <- ns :: n != ZERO_NULLIFIER) && NoDuplicates(ns)
  }

  predicate ValidAttempt(a: Attempt) { a.fee > 0 }

  predicate ValidRecord(r: Record) {
    && (r.mode == SELF_SIGNED ==>
          && r.selfSigner.Some? && r.hash.Some?
          && r.payer.None? && r.broadcaster.None? && r.quote.None? && r.feesID.None? && r.fee.None?
          && r.nullifiers.None? && r.retries.None? && r.ambiguity.None? && r.reported.None? && r.rejection.None?)
    && (r.mode == BROADCASTER ==>
          && r.payer.Some? && r.broadcaster.Some? && r.quote.Some? && r.feesID.Some? && r.fee.Some?
               && r.nullifiers.Some?
          && r.selfSigner.None? && r.nonce.None?)
    && (r.fee.Some? ==> r.fee.value > 0)
    && (r.nullifiers.Some? ==> 1 <= |r.nullifiers.value| <= MAX_NULLIFIERS && UniqueNonzero(r.nullifiers.value))
    && (r.retries.Some? ==> |r.retries.value| <= MAX_RETRIES && forall a <- r.retries.value :: ValidAttempt(a))
    && (r.ambiguity.Some? ==> 1 <= |r.ambiguity.value| <= MAX_AMBIGUITY_CODES)
    && (r.status in {SUBMITTED, MINED, REVERTED} ==> r.hash.Some?)
    && (r.mode == BROADCASTER && r.status == SUBMITTING ==> r.hash.None?)
    && (if r.status == REJECTED
        then r.mode == BROADCASTER && r.rejection.Some? && r.hash.None? && r.reported.None? && r.blockNumber.None?
        else r.rejection.None?)
    && (r.status in {MINED, REVERTED} <==> r.blockNumber.Some?)
  }

  predicate ValidJournal(records: seq<Record>) {
    |records| <= MAX_RECORDS && forall r <- records :: ValidRecord(r)
  }

  // ---- Operations -------------------------------------------------------------------------------

  datatype JournalError =
    | AlreadyRecorded | NullifierReserved | RetryLimit | NotApplicable | HashConflict | SchemaViolation | FileTooLarge

  type Journal = seq<Record>

  function Find(records: Journal, id: IntentId): (r: Option<nat>)
    ensures r.Some? ==> r.value < |records| && records[r.value].intentId == id
                        && forall k | 0 <= k < r.value :: records[k].intentId != id
    ensures r.None? ==> forall x <- records :: x.intentId != id
  {
    if records == [] then None
    else if records[0].intentId == id then Some(0)
    else match Find(records[1..], id)
      case None => None
      case Some(k) => Some(k + 1)
  }

  /** `write` parses what it is about to store and throws when the schema does not accept it. */
  function Write(records: Journal): Result<Journal, JournalError> {
    if ValidJournal(records) then Ok(records) else Thrown(SchemaViolation)
  }

  datatype Reservation = Reservation(
    payer: RailgunAddress, broadcaster: RailgunAddress, quote: QuoteFingerprint, feesID: nat, fee: nat,
    nullifiers: seq<Nullifier>)

  function SelfSignedRecord(q: Request, signer: EvmAddress, hash: Hash, nonce: nat, now: nat): Record {
    Record(q.id, q.Fingerprint(), SELF_SIGNED, Some(signer), None, None, None, None, None, None, None, None, None, None,
           SUBMITTING, Some(nonce), Some(hash), None, now, now)
  }

  function BroadcasterRecord(q: Request, v: Reservation, now: nat): Record {
    Record(q.id, q.Fingerprint(), BROADCASTER, None, Some(v.payer), Some(v.broadcaster), Some(v.quote), Some(v.feesID),
           Some(v.fee), Some(Normalized(v.nullifiers)), None, None, None, None, SUBMITTING, None, None, None, now, now)
  }

  function Reserve(
    j: Journal, q: Request, signer: EvmAddress, hash: Hash, nonce: nat, now: nat): Result<Journal, JournalError> {
    if Find(j, q.id).Some? then Thrown(AlreadyRecorded)
    else Write(j + [SelfSignedRecord(q, signer, hash, nonce, now)])
  }

  function ReserveBroadcaster(j: Journal, q: Request, v: Reservation, now: nat): Result<Journal, JournalError> {
    if Find(j, q.id).Some? then Thrown(AlreadyRecorded)
    else if Conflicts(j, q.id, v.nullifiers) then Thrown(NullifierReserved)
    else Write(j + [BroadcasterRecord(q, v, now)])
  }

  /** An unresolved Broadcaster reservation without any hash. */
  predicate Unresolved(r: Record) {
    r.mode == BROADCASTER && r.status == SUBMITTING && r.hash.None? && r.reported.None?
  }

  predicate RetryMatches(r: Record, q: Request, payer: RailgunAddress) {
    Unresolved(r) && r.fingerprint == q.Fingerprint() && r.payer == Some(payer)
  }

  /** `assertBroadcasterRetryable` */
  function Retryable(j: Journal, q: Request, payer: RailgunAddress): Result<Record, JournalError> {
    var at := Find(j, q.id);
    if at.None? || !RetryMatches(j[at.value], q, payer) then Thrown(AlreadyRecorded)
    else if |j[at.value].Retries()| >= MAX_RETRIES then Thrown(RetryLimit)
    else Ok(j[at.value])
  }

  function NewAttempt(v: Reservation, now: nat): Attempt {
    Attempt(v.broadcaster, v.quote, v.feesID, v.fee, RESERVED, now, now)
  }

  function ReserveRetry(j: Journal, q: Request, v: Reservation, now: nat): Result<Journal, JournalError> {
    var at := Find(j, q.id);
    if at.None? then Thrown(AlreadyRecorded)
    else
      var r := j[at.value];
      if !RetryMatches(r, q, v.payer) || r.nullifiers.None? || !SameNullifierSet(r.nullifiers.value, v.nullifiers)
      then Thrown(AlreadyRecorded)
      else if |r.Retries()| >= MAX_RETRIES then Thrown(RetryLimit)
      else Write(j[at.value := r.(retries := Some(r.Retries() + [NewAttempt(v, now)]), updatedAt := now)])
  }

  function MarkRejected(j: Journal, id: IntentId, code: RejectionCode, now: nat): Result<Journal, JournalError> {
    var at := Find(j, id);
    if at.None? || !Unresolved(j[at.value]) || j[at.value].Retries() != [] then Thrown(NotApplicable)
    else Write(j[at.value := j[at.value].(status := REJECTED, rejection := Some(code), updatedAt := now)])
  }

  predicate Reserved(a: Attempt, quote: Option<QuoteFingerprint>) {
    a.outcome == RESERVED && (quote.Some? ==> a.quote == quote.value)
  }

  /** `findLastIndex` of a reserved attempt, with the given quote if there is one. */
  function LastReserved(attempts: seq<Attempt>, quote: Option<QuoteFingerprint>): (r: Option<nat>)
    ensures r.Some? ==> r.value < |attempts| && Reserved(attempts[r.value], quote)
    ensures attempts != [] && Reserved(attempts[|attempts| - 1], quote) ==> r == Some(|attempts| - 1)
  {
    if attempts == [] then None
    else
      var last := |attempts| - 1;
      if Reserved(attempts[last], quote) then Some(last)
      else LastReserved(attempts[..last], quote)
  }

  function Settle(attempts: seq<Attempt>, k: nat, outcome: AttemptOutcome, now: nat): seq<Attempt>
    requires k < |attempts|
  {
    attempts[k := attempts[k].(outcome := outcome, updatedAt := now)]
  }

  function MarkRetryRejected(j: Journal, id: IntentId, quote: QuoteFingerprint, code: RejectionCode, now: nat):
    Result<Journal, JournalError>
  {
    var at := Find(j, id);
    if at.None? || !Unresolved(j[at.value]) then Thrown(NotApplicable)
    else
      var r := j[at.value];
      var k := LastReserved(r.Retries(), Some(quote));
      if k.None? then Thrown(NotApplicable)
      else
        Write(j[at.value :=
                r.(retries := Some(Settle(r.Retries(), k.value, Rejected(code), now)), updatedAt := now)])
  }

  function AddCode(codes: seq<AmbiguityCode>, code: AmbiguityCode): seq<AmbiguityCode> {
    if code in codes then codes else codes + [code]
  }

  function MarkAmbiguous(j: Journal, id: IntentId, code: AmbiguityCode, retry: Option<QuoteFingerprint>, now: nat):
    Result<Journal, JournalError>
  {
    var at := Find(j, id);
    if at.None? || !Unresolved(j[at.value]) then Thrown(NotApplicable)
    else
      var r := j[at.value];
      var noted := r.(ambiguity := Some(AddCode(r.Codes(), code)), updatedAt := now);
      if retry.Some? then
        var k := LastReserved(r.Retries(), retry);
        if k.None? then Thrown(NotApplicable)
        else Write(j[at.value := noted.(retries := Some(Settle(r.Retries(), k.value, Ambiguous(code), now)))])
      else if r.Retries() != [] then Thrown(NotApplicable)
      else Write(j[at.value := noted])
  }

  function MarkReported(j: Journal, id: IntentId, hash: Hash, now: nat): Result<Journal, JournalError> {
    var at := Find(j, id);
    if at.None? || j[at.value].mode != BROADCASTER || j[at.value].status != SUBMITTING then Thrown(NotApplicable)
    else
      var r := j[at.value];
      if r.reported.Some? then if r.reported.value != hash then Thrown(HashConflict) else Ok(j)
      else
        var k := LastReserved(r.Retries(), None);
        var noted := r.(reported := Some(hash), updatedAt := now);
        Write(j[at.value :=
                if k.Some? then noted.(retries := Some(Settle(r.Retries(), k.value, REPORTED, now))) else noted])
  }

  function MarkSubmitted(j: Journal, id: IntentId, hash: Hash, now: nat): Result<Journal, JournalError> {
    var at := Find(j, id);
    if at.None? then Thrown(NotApplicable)
    else
      var r := j[at.value];
      if r.hash.Some? && r.hash.value != hash then Thrown(HashConflict)
      else if r.status == SUBMITTED then Ok(j)
      else if r.status != SUBMITTING then Thrown(NotApplicable)
      else Write(j[at.value := r.(status := SUBMITTED, hash := Some(hash), updatedAt := now)])
  }

  function MarkMined(
    j: Journal, id: IntentId, blockNumber: nat, succeeded: bool, now: nat): Result<Journal, JournalError> {
    var at := Find(j, id);
    if at.None? || j[at.value].hash.None? then Thrown(NotApplicable)
    else
      var r, target := j[at.value], if succeeded then MINED else REVERTED;
      if r.status == target && r.blockNumber == Some(blockNumber) then Ok(j)
      else if r.status != SUBMITTED then Thrown(NotApplicable)
      else Write(j[at.value := r.(status := target, blockNumber := Some(blockNumber), updatedAt := now)])
  }
}
