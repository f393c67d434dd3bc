/** What every journal operation does to the record of its intent, and what each of its errors means, by the fields of
    the record alone. */
module JournalOutcomes {
  import opened Results
  import opened Sequences
  import opened JournalModel
  import opened JournalSize
  import opened JournalFacts

  // ---- What a record can take -------------------------------------------------------------------

  /** A payment to Broadcasters of which nothing final is known. */
  predicate Unsettled(r: Record) {
    r.mode == BROADCASTER && r.status == SUBMITTING && r.hash == None && r.reported == None
  }

  /** Another payment that may still spend one of these nullifiers, or has spent it. */
  ghost predicate Held(j: Journal, id: IntentId, ns: seq<Nullifier>) {
    exists r <- j, n <- ns ::
      r.intentId != id && r.mode == BROADCASTER && r.status in {SUBMITTING, SUBMITTED, MINED} && n in r.Nullifiers()
  }

  /** A positive fee, and between one and sixty-four distinct nullifiers other than zero. */
  ghost predicate Storable(v: Reservation) {
    && v.fee > 0 && 1 <= |v.nullifiers| <= 64 && 0 !in v.nullifiers
    && forall i, j | 0 <= i < j < |v.nullifiers| :: v.nullifiers[i] != v.nullifiers[j]
  }

  /** The last reserved attempt, or the last one with this quote. */
  ghost predicate LastOpen(attempts: seq<Attempt>, quote: Option<QuoteFingerprint>, k: nat) {
    && k < |attempts| && Open(attempts[k], quote)
    && forall i | k < i < |attempts| :: !Open(attempts[i], quote)
  }

  ghost predicate NoneOpen(attempts: seq<Attempt>, quote: Option<QuoteFingerprint>) {
    forall a <- attempts :: !Open(a, quote)
  }

  predicate Open(a: Attempt, quote: Option<QuoteFingerprint>) {
    a.outcome == RESERVED && (quote == None || quote == Some(a.quote))
  }

  /** The attempts with one of them settled. */
  ghost predicate SettledAt(before: seq<Attempt>, after: seq<Attempt>, k: nat, outcome: AttemptOutcome, now: nat) {
    && |after| == |before| && k < |before|
    && after[k] == before[k].(outcome := outcome, updatedAt := now)
    && forall i | 0 <= i < |before| && i != k :: after[i] == before[i]
  }

  // ---- Outcomes ---------------------------------------------------------------------------------

  /** The record of the intent is replaced, the others stand. */
  ghost predicate Replaced(j: Journal, id: IntentId, result: Result<Journal, JournalError>, s: Record) {
    var at := Find(j, id);
    at.Some? && result.Ok? && result.value == j[at.value := s]
  }

  ghost predicate ReserveOutcome(
    j: Journal, q: Request, signer: EvmAddress, hash: Hash, nonce: nat, now: nat, result: Result<Journal, JournalError>)
  {
    if Find(j, q.id).Some? then result == Thrown(AlreadyRecorded)
    else
      && result.Ok? && |result.value| == |j| + 1 && result.value[..|j|] == j
      && var s := result.value[|j|];
         && s.intentId == q.id && s.fingerprint == RequestFingerprint(q.id, q.signature) && s.mode == SELF_SIGNED
         && s.selfSigner == Some(signer) && s.hash == Some(hash) && s.nonce == Some(nonce)
         && s.status == SUBMITTING && s.blockNumber == None && s.createdAt == s.updatedAt == now
  }

  ghost predicate ReserveBroadcasterOutcome(
    j: Journal, q: Request, v: Reservation, now: nat, result: Result<Journal, JournalError>)
  {
    if Find(j, q.id).Some? then result == Thrown(AlreadyRecorded)
    else if Held(j, q.id, v.nullifiers) then result == Thrown(NullifierReserved)
    else if !Storable(v) then result == Thrown(SchemaViolation)
    else
      && result.Ok? && |result.value| == |j| + 1 && result.value[..|j|] == j
      && var s := result.value[|j|];
         && s.intentId == q.id && s.fingerprint == RequestFingerprint(q.id, q.signature) && Unsettled(s)
         && s.payer == Some(v.payer) && s.broadcaster == Some(v.broadcaster) && s.quote == Some(v.quote)
         && s.feesID == Some(v.feesID) && s.fee == Some(v.fee) && multiset(s.Nullifiers()) == multiset(v.nullifiers)
         && s.Retries() == [] && s.Codes() == [] && s.createdAt == s.updatedAt == now
  }

  /** What a retry must agree with: the same signed request, payer and nullifiers, and nothing known of the outcome. */
  ghost predicate RetryFits(j: Journal, q: Request, payer: RailgunAddress, ns: seq<Nullifier>) {
    var at := Find(j, q.id);
    && at.Some?
    && var r := j[at.value];
       && Unsettled(r) && r.fingerprint == RequestFingerprint(q.id, q.signature) && r.payer == Some(payer)
       && multiset(r.Nullifiers()) == multiset(ns)
  }

  ghost predicate ReserveRetryOutcome(
    j: Journal, q: Request, v: Reservation, now: nat, result: Result<Journal, JournalError>)
  {
    if !RetryFits(j, q, v.payer, v.nullifiers) then result == Thrown(AlreadyRecorded)
    else
      var r := j[Find(j, q.id).value];
      if |r.Retries()| >= 3 then result == Thrown(RetryLimit)
      else if v.fee == 0 then result == Thrown(SchemaViolation)
      else
        Replaced(j, q.id, result, r.(updatedAt := now, retries := Some(r.Retries() + [
          Attempt(v.broadcaster, v.quote, v.feesID, v.fee, RESERVED, now, now)])))
  }

  ghost predicate RejectOutcome(
    j: Journal, id: IntentId, code: RejectionCode, now: nat, result: Result<Journal, JournalError>)
  {
    var at := Find(j, id);
    if at.Some? && Unsettled(j[at.value]) && j[at.value].Retries() == []
    then Replaced(j, id, result, j[at.value].(status := REJECTED, rejection := Some(code), updatedAt := now))
    else result == Thrown(NotApplicable)
  }

  ghost predicate RetryRejectOutcome(
    j: Journal, id: IntentId, quote: QuoteFingerprint, code: RejectionCode, now: nat,
    result: Result<Journal, JournalError>)
  {
    var at := Find(j, id);
    if at.None? || !Unsettled(j[at.value]) || NoneOpen(j[at.value].Retries(), Some(quote))
    then result == Thrown(NotApplicable)
    else
      var r := j[at.value];
      exists s, k ::
        && Replaced(j, id, result, s) && LastOpen(r.Retries(), Some(quote), k) && s.retries.Some?
        && s == r.(retries := s.retries, updatedAt := now)
             && SettledAt(r.Retries(), s.Retries(), k, Rejected(code), now)
  }

  /** The codes with one more, unless it is there already. */
  ghost predicate CodeAdded(before: seq<AmbiguityCode>, after: seq<AmbiguityCode>, code: AmbiguityCode) {
    if code in before then after == before else after == before + [code]
  }

  ghost predicate AmbiguityOutcome(
    j: Journal, id: IntentId, code: AmbiguityCode, retry: Option<QuoteFingerprint>, now: nat,
    result: Result<Journal, JournalError>)
  {
    var at := Find(j, id);
    if at.None? || !Unsettled(j[at.value])
       || (if retry == None then j[at.value].Retries() != [] else NoneOpen(j[at.value].Retries(), retry))
    then result == Thrown(NotApplicable)
    else
      var r := j[at.value];
      if code !in r.Codes() && |r.Codes()| >= 4 then result == Thrown(SchemaViolation)
      else
        exists s ::
          && Replaced(j, id, result, s) && CodeAdded(r.Codes(), s.Codes(), code) && s.ambiguity.Some?
          && s == r.(ambiguity := s.ambiguity, retries := s.retries, updatedAt := now)
          && if retry == None then s.retries == r.retries
             else s.retries.Some? && exists k ::
               LastOpen(r.Retries(), retry, k) && SettledAt(r.Retries(), s.Retries(), k, Ambiguous(code), now)
  }

  ghost predicate ReportOutcome(j: Journal, id: IntentId, hash: Hash, now: nat, result: Result<Journal, JournalError>) {
    var at := Find(j, id);
    if at.None? || j[at.value].mode != BROADCASTER || j[at.value].status != SUBMITTING
    then result == Thrown(NotApplicable)
    else
      var r := j[at.value];
      if r.reported == Some(hash) then result == Ok(j)
      else if r.reported.Some? then result == Thrown(HashConflict)
      else
        exists s ::
          && Replaced(j, id, result, s) && s == r.(reported := Some(hash), retries := s.retries, updatedAt := now)
          && if NoneOpen(r.Retries(), None) then s.retries == r.retries
             else s.retries.Some? && exists k ::
               LastOpen(r.Retries(), None, k) && SettledAt(r.Retries(), s.Retries(), k, REPORTED, now)
  }

  ghost predicate SubmitOutcome(j: Journal, id: IntentId, hash: Hash, now: nat, result: Result<Journal, JournalError>) {
    var at := Find(j, id);
    if at.None? then result == Thrown(NotApplicable)
    else
      var r := j[at.value];
      if r.hash.Some? && r.hash != Some(hash) then result == Thrown(HashConflict)
      else if r.status == SUBMITTED then result == Ok(j)
      else if r.status == SUBMITTING
      then Replaced(j, id, result, r.(status := SUBMITTED, hash := Some(hash), updatedAt := now))
      else result == Thrown(NotApplicable)
  }

  ghost predicate MineOutcome(
    j: Journal, id: IntentId, blockNumber: nat, succeeded: bool, now: nat, result: Result<Journal, JournalError>)
  {
    var at := Find(j, id);
    if at.None? || j[at.value].status in {SUBMITTING, REJECTED} then result == Thrown(NotApplicable)
    else
      var r := j[at.value];
      if r.status == SUBMITTED then
        Replaced(j, id, result,
          r.(status := if succeeded then MINED else REVERTED, blockNumber := Some(blockNumber), updatedAt := now))
      else if (r.status == MINED) == succeeded && r.blockNumber == Some(blockNumber) then result == Ok(j)
      else result == Thrown(NotApplicable)
  }

  ghost predicate Outcome(j: Journal, op: Op, now: nat, result: Result<Journal, JournalError>) {
    match op
    case DoReserve(q, signer, hash, nonce) => ReserveOutcome(j, q, signer, hash, nonce, now, result)
    case DoReserveBroadcaster(q, v) => ReserveBroadcasterOutcome(j, q, v, now, result)
    case DoReserveRetry(q, v) => ReserveRetryOutcome(j, q, v, now, result)
    case DoMarkRejected(id, code) => RejectOutcome(j, id, code, now, result)
    case DoMarkRetryRejected(id, quote, code) => RetryRejectOutcome(j, id, quote, code, now, result)
    case DoMarkAmbiguous(id, code, retry) => AmbiguityOutcome(j, id, code, retry, now, result)
    case DoMarkReported(id, hash) => ReportOutcome(j, id, hash, now, result)
    case DoMarkSubmitted(id, hash) => SubmitOutcome(j, id, hash, now, result)
    case DoMarkMined(id, blockNumber, succeeded) => MineOutcome(j, id, blockNumber, succeeded, now, result)
  }

  // ---- The operations have these outcomes -------------------------------------------------------

  lemma HeldIffConflicts(j: Journal, id: IntentId, ns: seq<Nullifier>)
    ensures Held(j, id, ns) <==> Conflicts(j, id, ns)
  {
    SameElements(Normalized(ns), ns);
    if Conflicts(j, id, ns) {
      var r :| r in j && r.intentId != id && Active(r) && !Disjoint(r.Nullifiers(), Normalized(ns));
      var n :| n in r.Nullifiers() && n in Normalized(ns);
      assert n in ns;
    }
    if Held(j, id, ns) {
      var r, n :| r in j && n in ns && r.intentId != id && r.mode == BROADCASTER
                  && r.status in {SUBMITTING, SUBMITTED, MINED} && n in r.Nullifiers();
      assert n in Normalized(ns) && !Disjoint(r.Nullifiers(), Normalized(ns));
    }
  }

  lemma StorableIff(v: Reservation)
    ensures Storable(v) <==> GoodReservation(v)
  {
  }

  lemma {:induction false} OpenIsFound(attempts: seq<Attempt>, quote: Option<QuoteFingerprint>)
    ensures match LastReserved(attempts, quote)
            case None => NoneOpen(attempts, quote)
            case Some(k) => LastOpen(attempts, quote, k) && !NoneOpen(attempts, quote)
  {
    if attempts != [] {
      OpenIsFound(attempts[..|attempts| - 1], quote);
      assert Reserved(attempts[|attempts| - 1], quote) == Open(attempts[|attempts| - 1], quote);
    }
  }

  lemma ReserveHas(j: Journal, q: Request, signer: EvmAddress, hash: Hash, nonce: nat, now: nat)
    requires JournalOk(j) && Readable(j)
    ensures ReserveOutcome(j, q, signer, hash, nonce, now, Reserve(j, q, signer, hash, nonce, now))
  {
    SchemaViolationIff(j, DoReserve(q, signer, hash, nonce), now);
    hide Readable, ValidJournal;
  }

  lemma JournalOkIsValid(j: Journal)
    requires JournalOk(j)
    ensures ValidJournal(j) && forall r <- j :: ValidRecord(r)
  {
  }

  lemma ReservationFields(q: Request, v: Reservation, now: nat)
    ensures var s := BroadcasterRecord(q, v, now);
            && s.intentId == q.id && s.fingerprint == RequestFingerprint(q.id, q.signature) && Unsettled(s)
            && s.payer == Some(v.payer) && s.broadcaster == Some(v.broadcaster) && s.quote == Some(v.quote)
            && s.feesID == Some(v.feesID) && s.fee == Some(v.fee) && multiset(s.Nullifiers()) == multiset(v.nullifiers)
            && s.Retries() == [] && s.Codes() == [] && s.createdAt == s.updatedAt == now
  {
  }

  lemma ReserveBroadcasterHas(j: Journal, q: Request, v: Reservation, now: nat)
    requires JournalOk(j) && Readable(j)
    ensures ReserveBroadcasterOutcome(j, q, v, now, ReserveBroadcaster(j, q, v, now))
  {
    hide JournalOk, Readable, ValidJournal, Find, Held, Conflicts, Storable, GoodReservation, BroadcasterRecord;
    JournalOkIsValid(j);
    SchemaViolationIff(j, DoReserveBroadcaster(q, v), now);
    HeldIffConflicts(j, q.id, v.nullifiers);
    StorableIff(v);
    ReservationFields(q, v, now);
  }

  /** What a retry must fit, as the journal's own guard has it. */
  lemma RetryFitsIff(j: Journal, q: Request, v: Reservation)
    requires forall r <- j :: ValidRecord(r)
    ensures var at := Find(j, q.id);
            RetryFits(j, q, v.payer, v.nullifiers)
            <==> && at.Some? && RetryMatches(j[at.value], q, v.payer) && j[at.value].nullifiers.Some?
                 && SameNullifierSet(j[at.value].nullifiers.value, v.nullifiers)
  {
    var at := Find(j, q.id);
    if at.Some? {
      SameNullifierSetIff(j[at.value].Nullifiers(), v.nullifiers);
      NullifiersOfBroadcaster(j[at.value]);
    }
    hide SameNullifierSet, ValidRecord, Find;
  }

  lemma NullifiersOfBroadcaster(r: Record)
    requires ValidRecord(r)
    ensures r.mode == BROADCASTER ==> r.nullifiers.Some?
  {
  }

  lemma ReserveRetryHas(j: Journal, q: Request, v: Reservation, now: nat)
    requires JournalOk(j) && Readable(j)
    ensures ReserveRetryOutcome(j, q, v, now, ReserveRetry(j, q, v, now))
  {
    hide JournalOk, Readable, ValidJournal, ValidRecord, Find, RetryFits, RetryMatches, SameNullifierSet;
    JournalOkIsValid(j);
    SchemaViolationIff(j, DoReserveRetry(q, v), now);
    RetryFitsIff(j, q, v);
    RetryFitsFinds(j, q, v);
  }

  lemma RetryFitsFinds(j: Journal, q: Request, v: Reservation)
    ensures RetryFits(j, q, v.payer, v.nullifiers) ==> Find(j, q.id).Some?
    ensures var at := Find(j, q.id);
            at.Some? && j[at.value].nullifiers.Some? ==> j[at.value].Nullifiers() == j[at.value].nullifiers.value
  {
  }

  lemma RejectHas(j: Journal, id: IntentId, code: RejectionCode, now: nat)
    requires JournalOk(j) && Readable(j)
    ensures RejectOutcome(j, id, code, now, MarkRejected(j, id, code, now))
  {
    hide JournalOk, Readable, ValidJournal, ValidRecord, Find;
    JournalOkIsValid(j);
    SchemaViolationIff(j, DoMarkRejected(id, code), now);
  }

  lemma RetryRejectEffect(j: Journal, id: IntentId, quote: QuoteFingerprint, code: RejectionCode, now: nat, at: nat)
    requires Find(j, id) == Some(at) && !NoneOpen(j[at].Retries(), Some(quote))
    requires MarkRetryRejected(j, id, quote, code, now).Ok?
    ensures RetryRejectOutcome(j, id, quote, code, now, MarkRetryRejected(j, id, quote, code, now))
         || !Unsettled(j[at])
  {
    hide ValidJournal, Find, NoneOpen, LastReserved, LastOpen;
    var r, result := j[at], MarkRetryRejected(j, id, quote, code, now);
    OpenIsFound(r.Retries(), Some(quote));
    var k := LastReserved(r.Retries(), Some(quote));
    var s := r.(retries := Some(Settle(r.Retries(), k.value, Rejected(code), now)), updatedAt := now);
    assert SettledAt(r.Retries(), s.Retries(), k.value, Rejected(code), now);
    assert Replaced(j, id, result, s);
  }

  lemma RetryRejectHas(j: Journal, id: IntentId, quote: QuoteFingerprint, code: RejectionCode, now: nat)
    requires JournalOk(j) && Readable(j)
    ensures RetryRejectOutcome(j, id, quote, code, now, MarkRetryRejected(j, id, quote, code, now))
  {
    hide JournalOk, Readable, ValidJournal, ValidRecord, Find, NoneOpen, LastReserved, LastOpen, Settle;
    JournalOkIsValid(j);
    SchemaViolationIff(j, DoMarkRetryRejected(id, quote, code), now);
    var at := Find(j, id);
    if at.Some? && Unsettled(j[at.value]) {
      OpenIsFound(j[at.value].Retries(), Some(quote));
      if !NoneOpen(j[at.value].Retries(), Some(quote)) { RetryRejectEffect(j, id, quote, code, now, at.value); }
    }
  }

  lemma AmbiguityGuards(
    j: Journal, id: IntentId, code: AmbiguityCode, retry: Option<QuoteFingerprint>, now: nat, k: nat)
    requires JournalOk(j) && Readable(j) && Find(j, id) == Some(k) && Unsettled(j[k])
    ensures var r, result := j[k], MarkAmbiguous(j, id, code, retry, now);
            if (if retry == None then r.Retries() != [] else NoneOpen(r.Retries(), retry))
            then result == Thrown(NotApplicable)
            else if code !in r.Codes() && |r.Codes()| >= 4 then result == Thrown(SchemaViolation)
            else result.Ok?
  {
    hide JournalOk, Readable, ValidJournal, ValidRecord, Find, NoneOpen, LastReserved, LastOpen, Settle;
    JournalOkIsValid(j);
    FewCodes(j[k]);
    SchemaViolationIff(j, DoMarkAmbiguous(id, code, retry), now);
    OpenIsFound(j[k].Retries(), retry);
  }

  lemma FewCodes(r: Record)
    requires ValidRecord(r)
    ensures |r.Codes()| <= 4
  {
  }

  lemma AmbiguityEffect(
    j: Journal, id: IntentId, code: AmbiguityCode, retry: Option<QuoteFingerprint>, now: nat, k: nat)
    requires Find(j, id) == Some(k) && MarkAmbiguous(j, id, code, retry, now).Ok?
    ensures var r := j[k];
            exists s ::
              && Replaced(j, id, MarkAmbiguous(j, id, code, retry, now), s) && CodeAdded(r.Codes(), s.Codes(), code)
              && s.ambiguity.Some? && s == r.(ambiguity := s.ambiguity, retries := s.retries, updatedAt := now)
              && if retry == None then s.retries == r.retries
                 else s.retries.Some? && exists k ::
                   LastOpen(r.Retries(), retry, k) && SettledAt(r.Retries(), s.Retries(), k, Ambiguous(code), now)
  {
    hide ValidJournal, Find, NoneOpen, LastReserved, LastOpen;
    var r := j[k];
    OpenIsFound(r.Retries(), retry);
    var last := LastReserved(r.Retries(), retry);
    var noted := r.(ambiguity := Some(AddCode(r.Codes(), code)), updatedAt := now);
    if retry.Some? {
      var s := noted.(retries := Some(Settle(r.Retries(), last.value, Ambiguous(code), now)));
      assert SettledAt(r.Retries(), s.Retries(), last.value, Ambiguous(code), now);
      assert Replaced(j, id, MarkAmbiguous(j, id, code, retry, now), s);
    } else {
      assert Replaced(j, id, MarkAmbiguous(j, id, code, retry, now), noted);
    }
  }

  lemma AmbiguityHas(j: Journal, id: IntentId, code: AmbiguityCode, retry: Option<QuoteFingerprint>, now: nat)
    requires JournalOk(j) && Readable(j)
    ensures AmbiguityOutcome(j, id, code, retry, now, MarkAmbiguous(j, id, code, retry, now))
  {
    var at := Find(j, id);
    if at.Some? && Unsettled(j[at.value]) {
      hide JournalOk, Readable, MarkAmbiguous, NoneOpen, LastOpen, SettledAt, CodeAdded, Replaced, Unsettled;
      AmbiguityGuards(j, id, code, retry, now, at.value);
      if MarkAmbiguous(j, id, code, retry, now).Ok? { AmbiguityEffect(j, id, code, retry, now, at.value); }
    }
  }

  lemma ReportEffect(j: Journal, id: IntentId, hash: Hash, now: nat, at: nat)
    requires Find(j, id) == Some(at) && j[at].reported.None? && MarkReported(j, id, hash, now).Ok?
    ensures var r := j[at];
            exists s ::
              && Replaced(j, id, MarkReported(j, id, hash, now), s)
              && s == r.(reported := Some(hash), retries := s.retries, updatedAt := now)
              && if NoneOpen(r.Retries(), None) then s.retries == r.retries
                 else s.retries.Some? && exists k ::
                   LastOpen(r.Retries(), None, k) && SettledAt(r.Retries(), s.Retries(), k, REPORTED, now)
  {
    hide ValidJournal, Find, NoneOpen, LastReserved, LastOpen;
    var r := j[at];
    OpenIsFound(r.Retries(), None);
    var k := LastReserved(r.Retries(), None);
    var noted := r.(reported := Some(hash), updatedAt := now);
    if k.Some? {
      var s := noted.(retries := Some(Settle(r.Retries(), k.value, REPORTED, now)));
      assert SettledAt(r.Retries(), s.Retries(), k.value, REPORTED, now);
      assert Replaced(j, id, MarkReported(j, id, hash, now), s);
    } else {
      assert Replaced(j, id, MarkReported(j, id, hash, now), noted);
    }
  }

  lemma ReportGuards(j: Journal, id: IntentId, hash: Hash, now: nat)
    requires JournalOk(j) && Readable(j)
    ensures var at, result := Find(j, id), MarkReported(j, id, hash, now);
            if at.None? || j[at.value].mode != BROADCASTER || j[at.value].status != SUBMITTING
            then result == Thrown(NotApplicable)
            else if j[at.value].reported == Some(hash) then result == Ok(j)
            else if j[at.value].reported.Some? then result == Thrown(HashConflict)
            else result.Ok?
  {
    hide JournalOk, Readable, ValidJournal, ValidRecord, Find, LastReserved, Settle;
    JournalOkIsValid(j);
    SchemaViolationIff(j, DoMarkReported(id, hash), now);
  }

  lemma ReportHas(j: Journal, id: IntentId, hash: Hash, now: nat)
    requires JournalOk(j) && Readable(j)
    ensures ReportOutcome(j, id, hash, now, MarkReported(j, id, hash, now))
  {
    hide JournalOk, Readable, MarkReported, NoneOpen, LastOpen, SettledAt, Replaced, Find;
    ReportGuards(j, id, hash, now);
    var at := Find(j, id);
    if at.Some? && j[at.value].reported.None? && MarkReported(j, id, hash, now).Ok? {
      ReportEffect(j, id, hash, now, at.value);
    }
  }

  lemma SubmitHas(j: Journal, id: IntentId, hash: Hash, now: nat)
    requires JournalOk(j) && Readable(j)
    ensures SubmitOutcome(j, id, hash, now, MarkSubmitted(j, id, hash, now))
  {
    hide JournalOk, Readable, ValidJournal, ValidRecord, Find;
    JournalOkIsValid(j);
    SchemaViolationIff(j, DoMarkSubmitted(id, hash), now);
    var at := Find(j, id);
    if at.Some? { HashWhenChainKnows(j[at.value]); }
  }

  lemma HashWhenChainKnows(r: Record)
    requires ValidRecord(r)
    ensures r.status in {SUBMITTED, MINED, REVERTED} ==> r.hash.Some?
    ensures r.status == REJECTED ==> r.hash.None?
  {
  }

  lemma MineHas(j: Journal, id: IntentId, blockNumber: nat, succeeded: bool, now: nat)
    requires JournalOk(j) && Readable(j)
    ensures MineOutcome(j, id, blockNumber, succeeded, now, MarkMined(j, id, blockNumber, succeeded, now))
  {
    hide JournalOk, Readable, ValidJournal, ValidRecord, Find;
    JournalOkIsValid(j);
    SchemaViolationIff(j, DoMarkMined(id, blockNumber, succeeded), now);
    var at := Find(j, id);
    if at.Some? { HashWhenChainKnows(j[at.value]); }
  }

  /** On every journal that operations produce and that can be read: which error an operation throws, or what becomes
      of the record of its intent. Nothing else in the journal changes. */
  lemma OperationOutcome(j: Journal, op: Op, now: nat)
    requires JournalOk(j) && Readable(j)
    ensures Outcome(j, op, now, Apply(j, op, now))
  {
    hide JournalOk, Readable;
    hide ReserveOutcome, ReserveBroadcasterOutcome, ReserveRetryOutcome, RejectOutcome, RetryRejectOutcome;
    hide AmbiguityOutcome, ReportOutcome, SubmitOutcome, MineOutcome;
    hide Reserve, ReserveBroadcaster, ReserveRetry, MarkRejected, MarkRetryRejected, MarkAmbiguous, MarkReported;
    hide MarkSubmitted, MarkMined;
    match op
    case DoReserve(q, signer, hash, nonce) => ReserveHas(j, q, signer, hash, nonce, now);
    case DoReserveBroadcaster(q, v) => ReserveBroadcasterHas(j, q, v, now);
    case DoReserveRetry(q, v) => ReserveRetryHas(j, q, v, now);
    case DoMarkRejected(id, code) => RejectHas(j, id, code, now);
    case DoMarkRetryRejected(id, quote, code) => RetryRejectHas(j, id, quote, code, now);
    case DoMarkAmbiguous(id, code, retry) => AmbiguityHas(j, id, code, retry, now);
    case DoMarkReported(id, hash) => ReportHas(j, id, hash, now);
    case DoMarkSubmitted(id, hash) => SubmitHas(j, id, hash, now);
    case DoMarkMined(id, blockNumber, succeeded) => MineHas(j, id, blockNumber, succeeded, now);
  }

  /** `assertBroadcasterRetryable` succeeds with the record exactly for the same signed request and payer, as long as
      nothing is known of the outcome and fewer than three retries were reserved. */
  lemma RetryableIff(j: Journal, q: Request, payer: RailgunAddress)
    ensures var at := Find(j, q.id);
            Retryable(j, q, payer)
            == if at.None? || !Unsettled(j[at.value]) || j[at.value].payer != Some(payer)
                  || j[at.value].fingerprint != RequestFingerprint(q.id, q.signature)
               then Thrown(AlreadyRecorded)
               else if |j[at.value].Retries()| >= 3 then Thrown(RetryLimit) else Ok(j[at.value])
  {
  }
}
