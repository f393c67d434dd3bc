/** What the journal's own guards and limits do not prevent. */
module JournalLimits {
  import opened Results
  import opened JournalModel
  import opened JournalSize
  import opened JournalFacts

  // ---- What the guards of the journal do not exclude --------------------------------------------

  /** One reservation, then an ambiguity for each of four codes, all without a retry. */
  function FourAmbiguities(q: Request, v: Reservation): seq<(Op, nat)> {
    [(DoReserveBroadcaster(q, v), 0),
     (DoMarkAmbiguous(q.id, MissingResponse, None), 0),
     (DoMarkAmbiguous(q.id, BadResponse, None), 0),
     (DoMarkAmbiguous(q.id, WakuRequestTimeout, None), 0),
     (DoMarkAmbiguous(q.id, TransactionUnderpriced, None), 0)]
  }

  const SAMPLE_REQUEST := Request(0, 0)
  const SAMPLE_RESERVATION := Reservation(0, 0, QuoteFingerprint(0, 0, 0, Amount(1, 0), 0), 0, 1, [1])

  function Noted(codes: seq<AmbiguityCode>): Record {
    BroadcasterRecord(SAMPLE_REQUEST, SAMPLE_RESERVATION, 0).(ambiguity := if codes == [] then None else Some(codes))
  }

  lemma {:induction false} CodesAreShort(codes: seq<AmbiguityCode>)
    ensures CodesSize(codes) <= 32 * |codes|
  {
    if codes != [] {
      CodesAreShort(codes[..|codes| - 1]);
      hide CodesSize;
      assert |AmbiguityText(codes[|codes| - 1])| <= 26;
    }
  }

  lemma SampleIsSmall(codes: seq<AmbiguityCode>)
    requires |codes| <= MAX_AMBIGUITY_CODES
    ensures RecordSize(Noted(codes)) <= 4_000
  {
    CodesAreShort(codes);
    hide CodesSize;
    var r := Noted(codes);
    assert |Normalized([1])| == 1 by { NormalizedLength([1]); }
    assert CommonSize(r) <= 1_000 by { hide OptionalSize; }
    assert OptionalSize(r) <= 3_000 by { hide CommonSize, Normalized; }
  }

  lemma OneRecordSize(r: Record)
    ensures FileSize([r]) == 50 + RecordSize(r)
  {
    hide RecordSize;
    assert [r][..0] == [] && RecordsSize([]) == 0;
    assert RecordsSize([r]) == RecordsSize([r][..0]) + 6 + RecordSize([r][0]);
  }

  lemma SampleIsValid(codes: seq<AmbiguityCode>)
    requires |codes| <= MAX_AMBIGUITY_CODES
    ensures ValidRecord(Noted(codes)) && Unresolved(Noted(codes)) && Noted(codes).Codes() == codes
    ensures Noted(codes).Retries() == [] && Noted(codes).intentId == SAMPLE_REQUEST.id
  {
    NewRecordValid(SAMPLE_REQUEST, SAMPLE_RESERVATION, 0);
    hide Normalized;
  }

  lemma SampleIsReadable(codes: seq<AmbiguityCode>)
    requires |codes| <= MAX_AMBIGUITY_CODES
    ensures Readable([Noted(codes)]) && ValidJournal([Noted(codes)])
  {
    SampleIsSmall(codes);
    SampleIsValid(codes);
    hide RecordSize, ValidRecord, Noted;
    OneRecordSize(Noted(codes));
  }

  lemma NotedAgain(codes: seq<AmbiguityCode>, code: AmbiguityCode)
    requires code !in codes
    ensures Noted(codes).(ambiguity := Some(AddCode(codes, code)), updatedAt := 0) == Noted(codes + [code])
  {
    hide Normalized;
  }

  lemma NoteOne(codes: seq<AmbiguityCode>, code: AmbiguityCode)
    requires |codes| < MAX_AMBIGUITY_CODES && code !in codes
    ensures After([Noted(codes)], DoMarkAmbiguous(SAMPLE_REQUEST.id, code, None), 0) == [Noted(codes + [code])]
  {
    SampleIsValid(codes);
    SampleIsReadable(codes);
    SampleIsReadable(codes + [code]);
    NotedAgain(codes, code);
    hide Readable, ValidJournal, ValidRecord, Noted;
    NoteJournal(Noted(codes), SAMPLE_REQUEST.id, codes, code);
  }

  lemma NoteJournal(r: Record, id: IntentId, codes: seq<AmbiguityCode>, code: AmbiguityCode)
    requires Readable([r]) && Unresolved(r) && r.Codes() == codes && r.Retries() == [] && r.intentId == id
    requires ValidJournal([r.(ambiguity := Some(AddCode(codes, code)), updatedAt := 0)])
    ensures After([r], DoMarkAmbiguous(id, code, None), 0)
            == [r.(ambiguity := Some(AddCode(codes, code)), updatedAt := 0)]
  {
    hide Readable, ValidJournal, AddCode;
    var noted := r.(ambiguity := Some(AddCode(codes, code)), updatedAt := 0);
    assert Find([r], id) == Some(0);
    assert [r][0 := noted] == [noted];
  }

  /** The journal alone does not tie outcomes to messages. After this sequence of operations, which sends nothing
      twice, a fifth ambiguity code passes every guard and is then refused by the schema, and the reservation with its
      four recorded ambiguities can still be marked rejected. Both need a caller that records several outcomes for one
      message. */
  lemma JournalDoesNotCountOutcomes()
    ensures var j := RunOps(FourAmbiguities(SAMPLE_REQUEST, SAMPLE_RESERVATION));
            && |j| == 1 && |j[0].Codes()| == MAX_AMBIGUITY_CODES
            && Apply(j, DoMarkAmbiguous(SAMPLE_REQUEST.id, UnknownError, None), 0) == Thrown(SchemaViolation)
            && Apply(j, DoMarkRejected(SAMPLE_REQUEST.id, BadTokenFee), 0).Ok?
            && var rejected := After(j, DoMarkRejected(SAMPLE_REQUEST.id, BadTokenFee), 0);
               |rejected| == 1 && rejected[0].status == REJECTED && |rejected[0].Codes()| == MAX_AMBIGUITY_CODES
  {
    hide *;
    var codes := [MissingResponse, BadResponse, WakuRequestTimeout, TransactionUnderpriced];
    FourIsAll(codes);
    SampleRun(codes);
    SampleIsValid(codes);
    SampleIsReadable(codes);
    MoreAnswers(Noted(codes), SAMPLE_REQUEST.id, codes);
  }

  lemma FourIsAll(codes: seq<AmbiguityCode>)
    requires |codes| == 4
    ensures |codes| == MAX_AMBIGUITY_CODES
  {
  }

  /** With four codes recorded. */
  lemma MoreAnswers(r: Record, id: IntentId, codes: seq<AmbiguityCode>)
    requires Readable([r]) && ValidJournal([r]) && Unresolved(r) && r.Retries() == [] && r.intentId == id
    requires r.Codes() == codes && |codes| == MAX_AMBIGUITY_CODES && UnknownError !in codes
    ensures Apply([r], DoMarkAmbiguous(id, UnknownError, None), 0) == Thrown(SchemaViolation)
    ensures Apply([r], DoMarkRejected(id, BadTokenFee), 0).Ok?
    ensures var rejected := After([r], DoMarkRejected(id, BadTokenFee), 0);
            |rejected| == 1 && rejected[0].status == REJECTED && rejected[0].Codes() == codes
  {
    SchemaViolationIff([r], DoMarkAmbiguous(id, UnknownError, None), 0);
    SchemaViolationIff([r], DoMarkRejected(id, BadTokenFee), 0);
    assert Find([r], id) == Some(0);
    hide Readable, ValidJournal;
  }

  lemma SampleRun(codes: seq<AmbiguityCode>)
    requires codes == [MissingResponse, BadResponse, WakuRequestTimeout, TransactionUnderpriced]
    ensures RunOps(FourAmbiguities(SAMPLE_REQUEST, SAMPLE_RESERVATION)) == [Noted(codes)]
  {
    hide After, Noted, RunOps;
    var ops := FourAmbiguities(SAMPLE_REQUEST, SAMPLE_RESERVATION);
    FirstSample();
    NoteOne([], MissingResponse);
    NoteOne([MissingResponse], BadResponse);
    NoteOne([MissingResponse, BadResponse], WakuRequestTimeout);
    NoteOne([MissingResponse, BadResponse, WakuRequestTimeout], TransactionUnderpriced);
    assert [] + [MissingResponse] == [MissingResponse];
    assert [MissingResponse] + [BadResponse] == [MissingResponse, BadResponse];
    assert [MissingResponse, BadResponse] + [WakuRequestTimeout] == [MissingResponse, BadResponse, WakuRequestTimeout];
    assert [MissingResponse, BadResponse, WakuRequestTimeout] + [TransactionUnderpriced] == codes;
    RunFive(ops);
  }

  lemma RunFive(ops: seq<(Op, nat)>)
    requires |ops| == 5
    ensures RunOps(ops)
         == After(After(After(After(After([], ops[0].0, ops[0].1), ops[1].0, ops[1].1), ops[2].0, ops[2].1),
                        ops[3].0, ops[3].1), ops[4].0, ops[4].1)
  {
    hide After;
    assert ops[..5] == ops && ops[..0] == [];
    forall n | 0 <= n < 5 ensures RunOps(ops[..n + 1]) == After(RunOps(ops[..n]), ops[n].0, ops[n].1) {
      assert ops[..n + 1][..n] == ops[..n];
    }
    hide RunOps;
    assert RunOps(ops[..1]) == After(RunOps(ops[..0]), ops[0].0, ops[0].1);
    assert RunOps(ops[..2]) == After(RunOps(ops[..1]), ops[1].0, ops[1].1);
    assert RunOps(ops[..3]) == After(RunOps(ops[..2]), ops[2].0, ops[2].1);
    assert RunOps(ops[..4]) == After(RunOps(ops[..3]), ops[3].0, ops[3].1);
    assert RunOps([]) == [] by { EmptyRun(); }
  }

  lemma EmptyRun()
    ensures RunOps([]) == []
  {
  }

  lemma FirstSample()
    ensures After([], DoReserveBroadcaster(SAMPLE_REQUEST, SAMPLE_RESERVATION), 0) == [Noted([])]
  {
    SampleIsReadable([]);
    assert Noted([]) == BroadcasterRecord(SAMPLE_REQUEST, SAMPLE_RESERVATION, 0) by { hide Normalized; }
    assert Readable([]);
    hide Readable, ValidJournal, Noted, BroadcasterRecord;
    assert [] + [Noted([])] == [Noted([])];
  }

  // ---- Outgrowing the reader --------------------------------------------------------------------

  /** Self-signed reservations for the first intents, and the journal they leave. */
  function Fill(n: nat): seq<(Op, nat)> {
    if n == 0 then [] else Fill(n - 1) + [(DoReserve(Request(n - 1, 0), 0, 0, 0), 0)]
  }

  function FillRecord(id: IntentId): Record { SelfSignedRecord(Request(id, 0), 0, 0, 0, 0) }

  function Filled(n: nat): (j: Journal)
    ensures |j| == n && forall k | 0 <= k < n :: j[k] == FillRecord(k)
  {
    if n == 0 then [] else Filled(n - 1) + [FillRecord(n - 1)]
  }

  lemma FilledIsValid(n: nat)
    requires n <= MAX_RECORDS
    ensures ValidJournal(Filled(n))
  {
    forall r <- Filled(n) ensures ValidRecord(r) {}
    forall a, b | 0 <= a < b < n ensures Filled(n)[a].intentId != Filled(n)[b].intentId {}
  }

  /** A readable journal takes another reservation. */
  lemma FillOne(n: nat)
    requires Readable(Filled(n))
    ensures Find(Filled(n), n).None?
    ensures Apply(Filled(n), DoReserve(Request(n, 0), 0, 0, 0), 0) == Ok(Filled(n + 1))
    ensures After(Filled(n), DoReserve(Request(n, 0), 0, 0, 0), 0) == Filled(n + 1)
  {
    ReadableIsBelowCapacity(Filled(n));
    FilledIsValid(n + 1);
    hide ValidJournal, Readable;
  }

  lemma {:induction false} FillRuns(n: nat)
    requires forall m | 0 <= m < n :: Readable(Filled(m))
    ensures RunOps(Fill(n)) == Filled(n)
  {
    hide *;
    if n == 0 {
      NothingFilled();
    } else {
      FillRuns(n - 1);
      FillOne(n - 1);
      RunFill(n);
    }
  }

  lemma NothingFilled()
    ensures RunOps(Fill(0)) == Filled(0)
  {
  }

  lemma RunFill(n: nat)
    requires n > 0
    ensures RunOps(Fill(n)) == After(RunOps(Fill(n - 1)), DoReserve(Request(n - 1, 0), 0, 0, 0), 0)
  {
    hide Apply;
    assert Fill(n)[..|Fill(n - 1)|] == Fill(n - 1);
  }

  /** The last readable one of these journals. */
  lemma LastReadable() returns (n: nat)
    ensures forall m | 0 <= m <= n :: Readable(Filled(m))
    ensures !Readable(Filled(n + 1)) && n < MAX_RECORDS - 1
  {
    hide Readable, Filled;
    EmptyIsReadable();
    n := 0;
    while Readable(Filled(n + 1))
      invariant forall m | 0 <= m <= n :: Readable(Filled(m))
      decreases MAX_RECORDS - n
    {
      ReadableIsBelowCapacity(Filled(n + 1));
      n := n + 1;
    }
    ReadableIsBelowCapacity(Filled(n));
  }

  lemma EmptyIsReadable()
    ensures Readable(Filled(0))
  {
  }

  /** Once the file is too large nothing is ever written again. */
  lemma {:induction false} OutgrownIsForever(ops: seq<(Op, nat)>, n: nat)
    requires n <= |ops| && !Readable(RunOps(ops[..n]))
    ensures RunOps(ops) == RunOps(ops[..n])
  {
    hide Readable, Perform;
    if n == |ops| {
      assert ops[..n] == ops;
    } else {
      var last := |ops| - 1;
      assert ops[..last][..n] == ops[..n];
      OutgrownIsForever(ops[..last], n);
    }
  }

  /** The journal can be written to a size at which it is never read again, far below its limit on records: after
      some number of reservations it is readable, one more stores a journal that is not, and no operation after that
      changes anything. */
  lemma JournalOutgrowsItsReader() returns (n: nat)
    ensures RunOps(Fill(n)) == Filled(n) && Readable(RunOps(Fill(n)))
    ensures RunOps(Fill(n + 1)) == Filled(n + 1) && !Readable(RunOps(Fill(n + 1)))
    ensures n < MAX_RECORDS - 1
    ensures forall ops :: Fill(n + 1) <= ops ==> RunOps(ops) == Filled(n + 1)
  {
    hide *;
    n := LastReadable();
    FillRuns(n);
    FillRuns(n + 1);
    forall ops | Fill(n + 1) <= ops ensures RunOps(ops) == Filled(n + 1) {
      assert ops[..|Fill(n + 1)|] == Fill(n + 1);
      OutgrownIsForever(ops, |Fill(n + 1)|);
    }
  }
}
