/** `SubmissionJournal` as the class that rewrites its records. */
module SubmissionJournalModel {
  import opened Results
  import opened JournalModel
  import opened JournalSize

  /** What a method did, against what the operation computes: on an error the journal is as before. */
  ghost predicate Did(
    before: Journal, after: Journal, failure: Option<JournalError>, result: Result<Journal, JournalError>) {
    && result == (if failure.Some? then Thrown(failure.value) else Ok(after))
    && (failure.Some? ==> after == before)
  }

  class SubmissionJournal {
    var records: Journal

    constructor ()
      ensures records == []
    {
      records := [];
    }

    /** Parses, then replaces the file. */
    method Store(journal: Journal) returns (failure: Option<JournalError>)
      modifies this
      ensures Did(old(records), records, failure, Write(journal))
    {
      if !ValidJournal(journal) { return Some(SchemaViolation); }
      records := journal;
      return None;
    }

    method ReserveSelfSigned(
      q: Request, signer: EvmAddress, hash: Hash, nonce: nat, now: nat) returns (failure: Option<JournalError>)
      modifies this
      ensures Did(old(records), records, failure,
              Reading(old(records), Reserve(old(records), q, signer, hash, nonce, now)))
    {
      if !Readable(records) { return Some(FileTooLarge); }
      if Find(records, q.id).Some? { return Some(AlreadyRecorded); }
      failure := Store(records + [SelfSignedRecord(q, signer, hash, nonce, now)]);
    }

    method ReserveForBroadcaster(q: Request, v: Reservation, now: nat) returns (failure: Option<JournalError>)
      modifies this
      ensures Did(old(records), records, failure, Reading(old(records), ReserveBroadcaster(old(records), q, v, now)))
    {
      if !Readable(records) { return Some(FileTooLarge); }
      if Find(records, q.id).Some? { return Some(AlreadyRecorded); }
      if Conflicts(records, q.id, v.nullifiers) { return Some(NullifierReserved); }
      failure := Store(records + [BroadcasterRecord(q, v, now)]);
    }

    method ReserveForRetry(q: Request, v: Reservation, now: nat) returns (failure: Option<JournalError>)
      modifies this
      ensures Did(old(records), records, failure, Reading(old(records), ReserveRetry(old(records), q, v, now)))
    {
      if !Readable(records) { return Some(FileTooLarge); }
      var at := Find(records, q.id);
      if at.None? { return Some(AlreadyRecorded); }
      var current := records[at.value];
      if !RetryMatches(current, q, v.payer) || current.nullifiers.None?
         || !SameNullifierSet(current.nullifiers.value, v.nullifiers)
      {
        return Some(AlreadyRecorded);
      }
      var attempts := current.Retries();
      if |attempts| >= MAX_RETRIES { return Some(RetryLimit); }
      failure := Store(records[at.value :=
          current.(retries := Some(attempts + [NewAttempt(v, now)]), updatedAt := now)]);
    }

    method RecordRejection(id: IntentId, code: RejectionCode, now: nat) returns (failure: Option<JournalError>)
      modifies this
      ensures Did(old(records), records, failure, Reading(old(records), MarkRejected(old(records), id, code, now)))
    {
      if !Readable(records) { return Some(FileTooLarge); }
      var at := Find(records, id);
      if at.None? || !Unresolved(records[at.value]) || |records[at.value].Retries()| != 0 {
        return Some(NotApplicable);
      }
      failure := Store(records[at.value :=
          records[at.value].(status := REJECTED, rejection := Some(code), updatedAt := now)]);
    }

    /** The loop behind `findLastIndex`. */
    method FindLastReserved(attempts: seq<Attempt>, quote: Option<QuoteFingerprint>) returns (k: Option<nat>)
      ensures k == LastReserved(attempts, quote)
    {
      var n := |attempts|;
      assert attempts[..n] == attempts;
      while n > 0
        invariant n <= |attempts|
        invariant LastReserved(attempts, quote) == LastReserved(attempts[..n], quote)
      {
        n := n - 1;
        assert attempts[..n + 1][..n] == attempts[..n];
        if Reserved(attempts[n], quote) { return Some(n); }
      }
      return None;
    }

    method RecordRetryRejection(id: IntentId, quote: QuoteFingerprint, code: RejectionCode, now: nat)
      returns (failure: Option<JournalError>)
      modifies this
      ensures Did(old(records), records, failure,
              Reading(old(records), MarkRetryRejected(old(records), id, quote, code, now)))
    {
      if !Readable(records) { return Some(FileTooLarge); }
      var at := Find(records, id);
      if at.None? || !Unresolved(records[at.value]) { return Some(NotApplicable); }
      var current := records[at.value];
      var k := FindLastReserved(current.Retries(), Some(quote));
      if k.None? { return Some(NotApplicable); }
      failure := Store(records[at.value :=
        current.(retries := Some(Settle(current.Retries(), k.value, Rejected(code), now)), updatedAt := now)]);
    }

    method RecordAmbiguity(id: IntentId, code: AmbiguityCode, retry: Option<QuoteFingerprint>, now: nat)
      returns (failure: Option<JournalError>)
      modifies this
      ensures Did(old(records), records, failure,
              Reading(old(records), MarkAmbiguous(old(records), id, code, retry, now)))
    {
      if !Readable(records) { return Some(FileTooLarge); }
      var at := Find(records, id);
      if at.None? || !Unresolved(records[at.value]) { return Some(NotApplicable); }
      var current := records[at.value];
      var updated := current.(ambiguity := Some(AddCode(current.Codes(), code)), updatedAt := now);
      if retry.Some? {
        var k := FindLastReserved(current.Retries(), retry);
        if k.None? { return Some(NotApplicable); }
        updated := updated.(retries := Some(Settle(current.Retries(), k.value, Ambiguous(code), now)));
      } else if |current.Retries()| != 0 {
        return Some(NotApplicable);
      }
      failure := Store(records[at.value := updated]);
    }

    method RecordReport(id: IntentId, hash: Hash, now: nat) returns (failure: Option<JournalError>)
      modifies this
      ensures Did(old(records), records, failure, Reading(old(records), MarkReported(old(records), id, hash, now)))
    {
      if !Readable(records) { return Some(FileTooLarge); }
      var at := Find(records, id);
      if at.None? || records[at.value].mode != BROADCASTER || records[at.value].status != SUBMITTING {
        return Some(NotApplicable);
      }
      var current := records[at.value];
      if current.reported.Some? { return if current.reported.value != hash then Some(HashConflict) else None; }
      var updated := current.(reported := Some(hash), updatedAt := now);
      var k := FindLastReserved(current.Retries(), None);
      if k.Some? { updated := updated.(retries := Some(Settle(current.Retries(), k.value, REPORTED, now))); }
      failure := Store(records[at.value := updated]);
    }

    method RecordSubmission(id: IntentId, hash: Hash, now: nat) returns (failure: Option<JournalError>)
      modifies this
      ensures Did(old(records), records, failure, Reading(old(records), MarkSubmitted(old(records), id, hash, now)))
    {
      if !Readable(records) { return Some(FileTooLarge); }
      var at := Find(records, id);
      if at.None? { return Some(NotApplicable); }
      var current := records[at.value];
      if current.hash.Some? && current.hash.value != hash { return Some(HashConflict); }
      if current.status == SUBMITTED { return None; }
      if current.status != SUBMITTING { return Some(NotApplicable); }
      failure := Store(records[at.value := current.(status := SUBMITTED, hash := Some(hash), updatedAt := now)]);
    }

    method RecordReceipt(
      id: IntentId, blockNumber: nat, succeeded: bool, now: nat) returns (failure: Option<JournalError>)
      modifies this
      ensures Did(old(records), records, failure,
              Reading(old(records), MarkMined(old(records), id, blockNumber, succeeded, now)))
    {
      if !Readable(records) { return Some(FileTooLarge); }
      var at := Find(records, id);
      if at.None? || records[at.value].hash.None? { return Some(NotApplicable); }
      var current := records[at.value];
      var target := if succeeded then MINED else REVERTED;
      if current.status == target && current.blockNumber == Some(blockNumber) { return None; }
      if current.status != SUBMITTED { return Some(NotApplicable); }
      failure := Store(records[at.value :=
          current.(status := target, blockNumber := Some(blockNumber), updatedAt := now)]);
    }
  }
}
