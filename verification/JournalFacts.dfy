/** What every sequence of journal operations keeps, whoever calls them. */
module JournalFacts {
  import opened Results
  import opened Sequences
  import opened JournalModel
  import opened JournalSize

  datatype Op =
    | DoReserve(q: Request, signer: EvmAddress, selfHash: Hash, nonce: nat)
    | DoReserveBroadcaster(q: Request, v: Reservation)
    | DoReserveRetry(q: Request, v: Reservation)
    | DoMarkRejected(id: IntentId, rejection: RejectionCode)
    | DoMarkRetryRejected(id: IntentId, quote: QuoteFingerprint, rejection: RejectionCode)
    | DoMarkAmbiguous(id: IntentId, ambiguity: AmbiguityCode, retry: Option<QuoteFingerprint>)
    | DoMarkReported(id: IntentId, hash: Hash)
    | DoMarkSubmitted(id: IntentId, hash: Hash)
    | DoMarkMined(id: IntentId, blockNumber: nat, succeeded: bool)

  /** An operation on the journal that it has read. */
  function Perform(j: Journal, op: Op, now: nat): Result<Journal, JournalError> {
    match op
    case DoReserve(q, signer, hash, nonce) => Reserve(j, q, signer, hash, nonce, now)
    case DoReserveBroadcaster(q, v) => ReserveBroadcaster(j, q, v, now)
    case DoReserveRetry(q, v) => ReserveRetry(j, q, v, now)
    case DoMarkRejected(id, code) => MarkRejected(j, id, code, now)
    case DoMarkRetryRejected(id, quote, code) => MarkRetryRejected(j, id, quote, code, now)
    case DoMarkAmbiguous(id, code, retry) => MarkAmbiguous(j, id, code, retry, now)
    case DoMarkReported(id, hash) => MarkReported(j, id, hash, now)
    case DoMarkSubmitted(id, hash) => MarkSubmitted(j, id, hash, now)
    case DoMarkMined(id, block, succeeded) => MarkMined(j, id, block, succeeded, now)
  }

  function Apply(j: Journal, op: Op, now: nat): Result<Journal, JournalError> { Reading(j, Perform(j, op, now)) }

  /** The journal after an operation, which may have thrown. */
  function After(j: Journal, op: Op, now: nat): Journal {
    match Apply(j, op, now)
    case Ok(after) => after
    case Thrown(_) => j
  }

  function RunOps(ops: seq<(Op, nat)>): Journal {
    if ops == [] then []
    else After(RunOps(ops[..|ops| - 1]), ops[|ops| - 1].0, ops[|ops| - 1].1)
  }

  predicate Terminal(r: Record) { r.status in {MINED, REVERTED, REJECTED} }

  /** What an operation may do to a record. */
  ghost predicate Forward(r: Record, s: Record) {
    && s.intentId == r.intentId && s.fingerprint == r.fingerprint && s.mode == r.mode && s.payer == r.payer
    && s.broadcaster == r.broadcaster && s.nullifiers == r.nullifiers
    && (r.hash.Some? ==> s.hash == r.hash)
    && (r.reported.Some? ==> s.reported == r.reported)
    && (Terminal(r) ==> s == r)
    && (Active(s) ==> Active(r))
    && |r.Retries()| <= |s.Retries()|
    && forall k | 0 <= k < |r.Retries()| :: s.Retries()[k].broadcaster == r.Retries()[k].broadcaster
  }

  ghost predicate JournalOk(j: Journal) {
    && ValidJournal(j)
    && (forall a, b | 0 <= a < b < |j| :: j[a].intentId != j[b].intentId)
    && forall a, b | 0 <= a < b < |j| :: Active(j[a]) && Active(j[b]) ==> Disjoint(j[a].Nullifiers(), j[b].Nullifiers())
  }

  /** The intent an operation is about. */
  function Subject(op: Op): IntentId {
    match op
    case DoReserve(q, _, _, _) => q.id
    case DoReserveBroadcaster(q, _) => q.id
    case DoReserveRetry(q, _) => q.id
    case _ => op.id
  }

  /** A new record: valid, for an intent without one, and without conflicts. */
  ghost predicate Appended(j: Journal, after: Journal, id: IntentId) {
    && Find(j, id).None? && ValidJournal(after)
    && |after| == |j| + 1 && after[..|j|] == j && after[|j|].intentId == id
    && (Active(after[|j|]) ==> forall r <- j :: Active(r) ==> Disjoint(r.Nullifiers(), after[|j|].Nullifiers()))
  }

  /** The record of the intent has moved forward, and no other has changed. */
  ghost predicate MovedOn(j: Journal, after: Journal, id: IntentId) {
    var at := Find(j, id);
    && at.Some? && ValidJournal(after) && |after| == |j|
    && after == j[at.value := after[at.value]] && Forward(j[at.value], after[at.value])
  }

  /** An operation changes nothing, appends one record for a new intent, or moves one record forward. */
  ghost predicate Change(j: Journal, after: Journal, id: IntentId) {
    after == j || Appended(j, after, id) || MovedOn(j, after, id)
  }

  lemma Updated(j: Journal, id: IntentId, r: Record)
    requires Find(j, id).Some? && Forward(j[Find(j, id).value], r)
    requires Write(j[Find(j, id).value := r]).Ok?
    ensures MovedOn(j, Write(j[Find(j, id).value := r]).value, id)
  {
    hide Forward, ValidJournal;
  }

  lemma ReservationChanges(j: Journal, op: Op, now: nat)
    requires (op.DoReserve? || op.DoReserveBroadcaster?) && Apply(j, op, now).Ok?
    ensures Appended(j, Apply(j, op, now).value, Subject(op))
  {
    hide ValidRecord, Normalized, Readable;
  }

  lemma RetryChanges(j: Journal, q: Request, v: Reservation, now: nat)
    requires ReserveRetry(j, q, v, now).Ok?
    ensures MovedOn(j, ReserveRetry(j, q, v, now).value, q.id)
  {
    hide ValidJournal, Normalized;
    var r := j[Find(j, q.id).value];
    Updated(j, q.id, r.(retries := Some(r.Retries() + [NewAttempt(v, now)]), updatedAt := now));
  }

  /** A settled attempt keeps its Broadcaster. */
  lemma SettleForward(r: Record, s: Record, k: nat, outcome: AttemptOutcome, now: nat)
    requires k < |r.Retries()|
    requires s == r.(retries := Some(Settle(r.Retries(), k, outcome, now)),
                     ambiguity := s.ambiguity, reported := s.reported,
                     updatedAt := now)
    requires r.reported.None? && !Terminal(r)
    ensures Forward(r, s)
  {
  }

  lemma AnswerChanges(j: Journal, op: Op, now: nat)
    requires op.DoMarkRejected? || op.DoMarkRetryRejected? || op.DoMarkAmbiguous? || op.DoMarkReported?
    requires Apply(j, op, now).Ok?
    ensures Change(j, Apply(j, op, now).value, op.id)
  {
    hide ValidJournal, LastReserved, Settle, Forward, Readable;
    var r := j[Find(j, op.id).value];
    match op
    case DoMarkRejected(id, code) =>
      var s := r.(status := REJECTED, rejection := Some(code), updatedAt := now);
      PlainForward(r, s);
      Updated(j, id, s);
    case DoMarkRetryRejected(id, quote, code) =>
      var k := LastReserved(r.Retries(), Some(quote)).value;
      var s := r.(retries := Some(Settle(r.Retries(), k, Rejected(code), now)), updatedAt := now);
      SettleForward(r, s, k, Rejected(code), now);
      Updated(j, id, s);
    case DoMarkAmbiguous(id, code, retry) =>
      var noted := r.(ambiguity := Some(AddCode(r.Codes(), code)), updatedAt := now);
      if retry.Some? {
        var k := LastReserved(r.Retries(), retry).value;
        var s := noted.(retries := Some(Settle(r.Retries(), k, Ambiguous(code), now)));
        SettleForward(r, s, k, Ambiguous(code), now);
        Updated(j, id, s);
      } else {
        PlainForward(r, noted);
        Updated(j, id, noted);
      }
    case DoMarkReported(id, hash) =>
      if r.reported.None? {
        var noted := r.(reported := Some(hash), updatedAt := now);
        var k := LastReserved(r.Retries(), None);
        if k.Some? {
          var s := noted.(retries := Some(Settle(r.Retries(), k.value, REPORTED, now)));
          SettleForward(r, s, k.value, REPORTED, now);
          Updated(j, id, s);
        } else {
          PlainForward(r, noted);
          Updated(j, id, noted);
        }
      }
  }

  /** Progress that leaves the attempts alone. */
  lemma PlainForward(r: Record, s: Record)
    requires s == r.(status := s.status, hash := s.hash, blockNumber := s.blockNumber, ambiguity := s.ambiguity,
                     reported := s.reported, rejection := s.rejection, updatedAt := s.updatedAt)
    requires !Terminal(r) && (r.hash.Some? ==> s.hash == r.hash) && (r.reported.Some? ==> s.reported == r.reported)
    ensures Forward(r, s)
  {
  }

  lemma ChainChanges(j: Journal, op: Op, now: nat)
    requires op.DoMarkSubmitted? || op.DoMarkMined?
    requires Apply(j, op, now).Ok?
    ensures Change(j, Apply(j, op, now).value, op.id)
  {
    hide ValidJournal, Forward, Readable;
    var r := j[Find(j, op.id).value];
    match op
    case DoMarkSubmitted(id, hash) =>
      if r.status != SUBMITTED {
        var s := r.(status := SUBMITTED, hash := Some(hash), updatedAt := now);
        PlainForward(r, s);
        Updated(j, id, s);
      }
    case DoMarkMined(id, block, succeeded) =>
      if r.status == SUBMITTED {
        var s := r.(status := if succeeded then MINED else REVERTED, blockNumber := Some(block), updatedAt := now);
        PlainForward(r, s);
        Updated(j, id, s);
      }
  }

  lemma ApplyChanges(j: Journal, op: Op, now: nat)
    ensures Change(j, After(j, op, now), Subject(op))
  {
    if Apply(j, op, now).Ok? {
      hide MovedOn, Appended, Apply;
      match op
      case DoReserve(_, _, _, _) => ReservationChanges(j, op, now);
      case DoReserveBroadcaster(_, _) => ReservationChanges(j, op, now);
      case DoReserveRetry(q, v) =>
        assert Apply(j, op, now) == ReserveRetry(j, q, v, now) by { ApplyRetry(j, q, v, now); }
        RetryChanges(j, q, v, now);
      case DoMarkSubmitted(_, _) => ChainChanges(j, op, now);
      case DoMarkMined(_, _, _) => ChainChanges(j, op, now);
      case _ => AnswerChanges(j, op, now);
    }
  }

  /** An operation that goes through did so on the journal it had read. */
  lemma AppliedIsPerformed(j: Journal, op: Op, now: nat)
    requires Apply(j, op, now).Ok?
    ensures Apply(j, op, now) == Perform(j, op, now)
  {
    hide Readable, Perform;
  }

  lemma ApplyRetry(j: Journal, q: Request, v: Reservation, now: nat)
    ensures Apply(j, DoReserveRetry(q, v), now).Ok? ==>
            Apply(j, DoReserveRetry(q, v), now) == ReserveRetry(j, q, v, now)
  {
    hide Readable, ReserveRetry;
  }

  lemma AppendedKeepsOk(j: Journal, after: Journal, id: IntentId)
    requires JournalOk(j) && Appended(j, after, id)
    ensures JournalOk(after)
  {
    hide ValidJournal;
    assert forall k | 0 <= k < |j| :: after[k] == j[k] && j[k] in j;
    forall a | 0 <= a < |j| && Active(after[a]) && Active(after[|j|])
      ensures Disjoint(after[a].Nullifiers(), after[|j|].Nullifiers())
    {
      assert j[a] in j;
    }
  }

  lemma MovedOnKeepsOk(j: Journal, after: Journal, id: IntentId)
    requires JournalOk(j) && MovedOn(j, after, id)
    ensures JournalOk(after)
  {
    hide ValidJournal;
    var at := Find(j, id).value;
    assert forall k | 0 <= k < |j| ::
      && after[k].intentId == j[k].intentId && after[k].Nullifiers() == j[k].Nullifiers()
      && (Active(after[k]) ==> Active(j[k]));
  }

  lemma ChangeKeepsOk(j: Journal, after: Journal, id: IntentId)
    requires JournalOk(j) && Change(j, after, id)
    ensures JournalOk(after)
  {
    hide JournalOk, Appended, MovedOn;
    if Appended(j, after, id) { AppendedKeepsOk(j, after, id); }
    else if MovedOn(j, after, id) { MovedOnKeepsOk(j, after, id); }
  }

  /** In every journal that operations can produce, the active Broadcaster records of different intents have
      disjoint nullifiers, and every record fits the schema. */
  lemma {:induction false} ReachableJournalOk(ops: seq<(Op, nat)>)
    ensures JournalOk(RunOps(ops))
  {
    if ops != [] {
      var last := |ops| - 1;
      ReachableJournalOk(ops[..last]);
      ApplyChanges(RunOps(ops[..last]), ops[last].0, ops[last].1);
      ChangeKeepsOk(RunOps(ops[..last]), RunOps(ops), Subject(ops[last].0));
    }
  }

  // ---- Records only move forward ----------------------------------------------------------------

  /** No record is removed, and each has moved forward from where it was. */
  ghost predicate Onward(j: Journal, after: Journal) {
    |j| <= |after| && forall k | 0 <= k < |j| :: Forward(j[k], after[k])
  }

  lemma ChangeIsOnward(j: Journal, after: Journal, id: IntentId)
    requires Change(j, after, id)
    ensures Onward(j, after)
  {
  }

  lemma OnwardTransitive(a: Journal, b: Journal, c: Journal)
    requires Onward(a, b) && Onward(b, c)
    ensures Onward(a, c)
  {
    forall k | 0 <= k < |a| ensures Forward(a[k], c[k]) {
      assert Forward(a[k], b[k]) && Forward(b[k], c[k]);
    }
  }

  /** Over any stretch of operations: records stay, keep their intent, mode, payer, first Broadcaster and
      nullifiers; a canonical or reported hash once set is never replaced; MINED, REVERTED and REJECTED records
      never change again; an inactive record never becomes active. */
  lemma {:induction false} RecordsMoveForward(ops: seq<(Op, nat)>, n: nat)
    requires n <= |ops|
    ensures Onward(RunOps(ops[..n]), RunOps(ops))
  {
    if n == |ops| {
      assert ops[..n] == ops;
    } else {
      var last := |ops| - 1;
      RecordsMoveForward(ops[..last], n);
      assert ops[..last][..n] == ops[..n];
      ApplyChanges(RunOps(ops[..last]), ops[last].0, ops[last].1);
      ChangeIsOnward(RunOps(ops[..last]), RunOps(ops), Subject(ops[last].0));
      OnwardTransitive(RunOps(ops[..n]), RunOps(ops[..last]), RunOps(ops));
    }
  }

  /** Only `markSubmitted` sets a hash, to the hash it was given; only `markMined` sets a block number. */
  lemma OnlyMarksSetHash(j: Journal, op: Op, now: nat, k: nat)
    requires JournalOk(j) && k < |j|
    ensures var after := After(j, op, now);
            && k < |after|
            && (after[k].hash != j[k].hash ==>
                  op.DoMarkSubmitted? && Find(j, op.id) == Some(k) && j[k].hash.None? && after[k].hash == Some(op.hash))
            && (after[k].blockNumber != j[k].blockNumber ==> op.DoMarkMined? && Find(j, op.id) == Some(k))
  {
    hide ValidJournal, ValidRecord, LastReserved, Settle, Normalized, Conflicts, SameNullifierSet, JournalOk, Readable;
    match op
    case DoReserve(_, _, _, _) =>
    case DoReserveBroadcaster(_, _) =>
    case DoReserveRetry(_, _) =>
    case _ =>
      var at := Find(j, op.id);
      if at.Some? && at.value != k { OnlyItsRecord(j, op, now, k); }
  }

  lemma OnlyItsRecord(j: Journal, op: Op, now: nat, k: nat)
    requires k < |j| && Find(j, Subject(op)) != Some(k)
    ensures k < |After(j, op, now)| && After(j, op, now)[k] == j[k]
  {
    ApplyChanges(j, op, now);
    hide After, ValidJournal, Forward;
  }

  // ---- When a write is refused ------------------------------------------------------------------

  predicate GoodReservation(v: Reservation) {
    v.fee > 0 && 1 <= |v.nullifiers| <= MAX_NULLIFIERS && UniqueNonzero(v.nullifiers)
  }

  lemma {:induction false} NormalizedLength(ns: seq<Nullifier>)
    ensures |Normalized(ns)| == |ns|
  {
    assert |multiset(Normalized(ns))| == |multiset(ns)|;
  }

  lemma NormalizedUnique(ns: seq<Nullifier>)
    ensures UniqueNonzero(Normalized(ns)) <==> UniqueNonzero(ns)
  {
    SameElements(Normalized(ns), ns);
    if NoDuplicates(ns) { DuplicatesByCount(ns, Normalized(ns)); }
    if NoDuplicates(Normalized(ns)) { DuplicatesByCount(Normalized(ns), ns); }
  }

  /** Exactly when the schema refuses what an operation is about to write. */
  predicate Refused(j: Journal, op: Op) {
    match op
    case DoReserve(q, _, _, _) => Find(j, q.id).None? && |j| == MAX_RECORDS
    case DoReserveBroadcaster(q, v) =>
      Find(j, q.id).None? && !Conflicts(j, q.id, v.nullifiers) && (|j| == MAX_RECORDS || !GoodReservation(v))
    case DoReserveRetry(q, v) =>
      var at := Find(j, q.id);
      && at.Some? && RetryMatches(j[at.value], q, v.payer) && |j[at.value].Retries()| < MAX_RETRIES
      && SameNullifierSet(j[at.value].Nullifiers(), v.nullifiers) && v.fee == 0
    case DoMarkAmbiguous(id, code, retry) =>
      var at := Find(j, id);
      && at.Some? && Unresolved(j[at.value])
      && (if retry.Some? then LastReserved(j[at.value].Retries(), retry).Some? else j[at.value].Retries() == [])
      && code !in j[at.value].Codes() && |j[at.value].Codes()| == MAX_AMBIGUITY_CODES
    case _ => false
  }

  lemma AppendValid(j: Journal, r: Record)
    requires ValidJournal(j)
    ensures ValidJournal(j + [r]) <==> |j| < MAX_RECORDS && ValidRecord(r)
  {
    if ValidJournal(j + [r]) { assert (j + [r])[|j|] in j + [r]; }
  }

  lemma UpdateValid(j: Journal, k: nat, r: Record)
    requires ValidJournal(j) && k < |j|
    ensures ValidJournal(j[k := r]) <==> ValidRecord(r)
  {
    if ValidJournal(j[k := r]) { assert j[k := r][k] in j[k := r]; }
  }

  lemma SelfSignedRefused(j: Journal, q: Request, signer: EvmAddress, hash: Hash, nonce: nat, now: nat)
    requires ValidJournal(j)
    ensures Reserve(j, q, signer, hash, nonce, now) == Thrown(SchemaViolation)
       <==> Refused(j, DoReserve(q, signer, hash, nonce))
  {
    var r := SelfSignedRecord(q, signer, hash, nonce, now);
    AppendValid(j, r);
    assert ValidRecord(r);
    hide ValidJournal, ValidRecord;
  }

  lemma NewRecordValid(q: Request, v: Reservation, now: nat)
    ensures ValidRecord(BroadcasterRecord(q, v, now)) <==> GoodReservation(v)
  {
    NormalizedLength(v.nullifiers);
    NormalizedUnique(v.nullifiers);
    hide Normalized, UniqueNonzero;
  }

  lemma ReservationRefused(j: Journal, q: Request, v: Reservation, now: nat)
    requires ValidJournal(j)
    ensures ReserveBroadcaster(j, q, v, now) == Thrown(SchemaViolation) <==> Refused(j, DoReserveBroadcaster(q, v))
  {
    AppendValid(j, BroadcasterRecord(q, v, now));
    NewRecordValid(q, v, now);
    hide ValidJournal, ValidRecord, GoodReservation, Conflicts, Normalized;
  }

  lemma RetryRecordValid(r: Record, v: Reservation, now: nat)
    requires ValidRecord(r) && r.mode == BROADCASTER && |r.Retries()| < MAX_RETRIES
    ensures ValidRecord(r.(retries := Some(r.Retries() + [NewAttempt(v, now)]), updatedAt := now)) <==> v.fee > 0
  {
    hide UniqueNonzero;
    var attempts := r.Retries() + [NewAttempt(v, now)];
    assert attempts[|r.Retries()|] in attempts;
    assert forall a <- attempts :: a in r.Retries() || a == NewAttempt(v, now);
  }

  lemma RetryRefused(j: Journal, q: Request, v: Reservation, now: nat)
    requires ValidJournal(j)
    ensures ReserveRetry(j, q, v, now) == Thrown(SchemaViolation) <==> Refused(j, DoReserveRetry(q, v))
  {
    var at := Find(j, q.id);
    if at.Some? && RetryMatches(j[at.value], q, v.payer) && |j[at.value].Retries()| < MAX_RETRIES {
      var r := j[at.value];
      assert ValidRecord(r) && r.nullifiers.Some? by { assert r in j; }
      UpdateValid(j, at.value, r.(retries := Some(r.Retries() + [NewAttempt(v, now)]), updatedAt := now));
      RetryRecordValid(r, v, now);
    }
    hide ValidJournal, ValidRecord, SameNullifierSet;
  }

  /** Settling an attempt keeps the attempts valid. */
  lemma SettledValid(attempts: seq<Attempt>, k: nat, outcome: AttemptOutcome, now: nat)
    requires k < |attempts| && forall a <- attempts :: ValidAttempt(a)
    ensures forall a <- Settle(attempts, k, outcome, now) :: ValidAttempt(a)
  {
    assert attempts[k] in attempts;
  }

  lemma OutcomeRefused(j: Journal, op: Op, now: nat)
    requires ValidJournal(j)
    requires op.DoMarkRejected? || op.DoMarkRetryRejected? || op.DoMarkReported?
    ensures Perform(j, op, now) != Thrown(SchemaViolation)
  {
    var at := Find(j, op.id);
    if at.Some? && j[at.value].mode == BROADCASTER && j[at.value].status == SUBMITTING && j[at.value].reported.None? {
      var r := j[at.value];
      assert r in j;
      match op
      case DoMarkRejected(id, code) =>
        UpdateValid(j, at.value, r.(status := REJECTED, rejection := Some(code), updatedAt := now));
      case DoMarkRetryRejected(id, quote, code) =>
        var k := LastReserved(r.Retries(), Some(quote));
        if k.Some? {
          SettledValid(r.Retries(), k.value, Rejected(code), now);
          UpdateValid(j, at.value,
            r.(retries := Some(Settle(r.Retries(), k.value, Rejected(code), now)), updatedAt := now));
        }
      case DoMarkReported(id, hash) =>
        var noted := r.(reported := Some(hash), updatedAt := now);
        var k := LastReserved(r.Retries(), None);
        if k.Some? {
          SettledValid(r.Retries(), k.value, REPORTED, now);
          UpdateValid(j, at.value, noted.(retries := Some(Settle(r.Retries(), k.value, REPORTED, now))));
        } else {
          UpdateValid(j, at.value, noted);
        }
    }
  }

  lemma AmbiguityRefused(j: Journal, op: Op, now: nat)
    requires ValidJournal(j) && op.DoMarkAmbiguous?
    ensures Perform(j, op, now) == Thrown(SchemaViolation) <==> Refused(j, op)
  {
    var at := Find(j, op.id);
    if at.Some? && Unresolved(j[at.value]) {
      var r := j[at.value];
      assert r in j;
      var noted := r.(ambiguity := Some(AddCode(r.Codes(), op.ambiguity)), updatedAt := now);
      var k := LastReserved(r.Retries(), op.retry);
      if op.retry.Some? && k.Some? {
        SettledValid(r.Retries(), k.value, Ambiguous(op.ambiguity), now);
        UpdateValid(j, at.value, noted.(retries := Some(Settle(r.Retries(), k.value, Ambiguous(op.ambiguity), now))));
      } else {
        UpdateValid(j, at.value, noted);
      }
    }
  }

  lemma ChainRefused(j: Journal, op: Op, now: nat)
    requires ValidJournal(j)
    requires op.DoMarkSubmitted? || op.DoMarkMined?
    ensures Perform(j, op, now) != Thrown(SchemaViolation)
  {
    var at := Find(j, op.id);
    if at.Some? {
      var r := j[at.value];
      assert r in j;
      match op
      case DoMarkSubmitted(_, hash) =>
        UpdateValid(j, at.value, r.(status := SUBMITTED, hash := Some(hash), updatedAt := now));
      case DoMarkMined(_, block, succeeded) =>
        UpdateValid(j, at.value,
          r.(status := if succeeded then MINED else REVERTED, blockNumber := Some(block), updatedAt := now));
    }
  }

  /** The same over journals that can be read, where the limit on records is never what fails. */
  predicate RefusedOnceRead(j: Journal, op: Op) {
    match op
    case DoReserve(_, _, _, _) => false
    case DoReserveBroadcaster(q, v) => Find(j, q.id).None? && !Conflicts(j, q.id, v.nullifiers) && !GoodReservation(v)
    case _ => Refused(j, op)
  }

  /** Validation before a write fails, in a journal that could be read, exactly for a reservation with a bad fee or
      nullifier list, or for a fifth distinct ambiguity code: no guard of the journal excludes the last. The schema's
      limit on records is never reached, as the limit on reading comes first. */
  lemma SchemaViolationIff(j: Journal, op: Op, now: nat)
    requires ValidJournal(j)
    ensures Apply(j, op, now) == Thrown(SchemaViolation) <==> Readable(j) && RefusedOnceRead(j, op)
  {
    PerformRefused(j, op, now);
    if Readable(j) { ReadableIsBelowCapacity(j); }
    hide Perform, Readable, Find, Conflicts, GoodReservation;
  }

  lemma PerformRefused(j: Journal, op: Op, now: nat)
    requires ValidJournal(j)
    ensures Perform(j, op, now) == Thrown(SchemaViolation) <==> Refused(j, op)
  {
    match op
    case DoReserve(q, signer, hash, nonce) => SelfSignedRefused(j, q, signer, hash, nonce, now);
    case DoReserveBroadcaster(q, v) => ReservationRefused(j, q, v, now);
    case DoReserveRetry(q, v) => RetryRefused(j, q, v, now);
    case DoMarkAmbiguous(_, _, _) => AmbiguityRefused(j, op, now);
    case DoMarkSubmitted(_, _) => ChainRefused(j, op, now);
    case DoMarkMined(_, _, _) => ChainRefused(j, op, now);
    case _ => OutcomeRefused(j, op, now);
  }
}
