/** Where a command of the payer can begin, what it leaves for the next one, and how a payment comes to its recorded
    outcome. */
module PayerOutcomes {
  import opened Results
  import opened JournalModel
  import opened JournalSize
  import opened JournalFacts
  import opened JournalOutcomes
  import opened BroadcasterSelection
  import opened Quorum
  import opened PayerProtocol
  import opened PayerInvariant
  import opened PayerSteps
  import opened PayerTheorems
  import opened PayerCommands
  import opened PayerProgress
  import Rpc = ReceiptQuorum

  // ---- Where commands begin ---------------------------------------------------------------------

  /** The Broadcasters of all attempts of a record. */
  function Asked(r: Record): set<RailgunAddress> {
    (if r.broadcaster.Some? then {r.broadcaster.value} else {})
    + (set k | 0 <= k < |r.Retries()| :: r.Retries()[k].broadcaster)
  }

  /** The same signed request of the same payer, with nothing known of its outcome and a retry left. */
  ghost predicate MayRetry(j: Journal, q: Request, payer: RailgunAddress) {
    var at := Find(j, q.id);
    && at.Some?
    && var r := j[at.value];
       && Unsettled(r) && r.payer == Some(payer) && r.fingerprint == RequestFingerprint(q.id, q.signature)
       && |r.Retries()| < 3
  }

  /** A payment of this payer whose message may still be mined, or was. */
  ghost predicate MayRecover(j: Journal, id: IntentId, payer: RailgunAddress) {
    var at := Find(j, id);
    && at.Some?
    && var r := j[at.value];
       r.mode == BROADCASTER && r.payer == Some(payer) && r.status in {SUBMITTING, SUBMITTED}
  }

  /** Each command starts exactly when its request allows it, with every Broadcaster that was ever asked left out of a
      retry, and otherwise changes nothing. */
  lemma BeginsIff(w: World, q: Request, payer: RailgunAddress, terms: Terms)
    requires w.phase.Idle?
    ensures Next(w, BeginSend(q, payer), terms)
         == if Readable(w.journal) && Find(w.journal, q.id).None? then w.(phase := Checked(q, payer, false, {})) else w
    ensures Next(w, BeginSelfSigned(q), terms)
         == if Readable(w.journal) && Find(w.journal, q.id).None? then w.(phase := SelfChecked(q)) else w
    ensures Next(w, BeginRetry(q, payer), terms)
         == if Readable(w.journal) && MayRetry(w.journal, q, payer)
            then w.(phase := Checked(q, payer, true, Asked(w.journal[Find(w.journal, q.id).value]))) else w
    ensures Next(w, BeginRecovery(q.id, payer), terms)
         == if Readable(w.journal) && MayRecover(w.journal, q.id, payer)
            then w.(phase := Recovering(q.id, w.journal[Find(w.journal, q.id).value].Nullifiers())) else w
  {
    hide Readable, Find, Retryable, Tried;
    RetryableIff(w.journal, q, payer);
    var at := Find(w.journal, q.id);
    if at.Some? { AskedIsTried(w.journal[at.value]); }
    NextBegin(w, q, payer, false, terms);
    NextBegin(w, q, payer, true, terms);
    NextBeginSelfSigned(w, q, terms);
    NextBeginRecovery(w, q.id, payer, terms);
    hide Next;
  }

  lemma AskedIsTried(r: Record)
    ensures Asked(r) == Tried(r)
  {
    forall b ensures b in Asked(r) <==> b in Tried(r) {
      assert (exists k :: 0 <= k < |r.Retries()| && r.Retries()[k].broadcaster == b)
        <==> exists a :: a in r.Retries() && a.broadcaster == b;
    }
  }

  // ---- What a transfer leaves -------------------------------------------------------------------

  /** From the reservation to the answer, the record carries the signed request, the payer, and the quote, fee id, fee
      and nullifiers of the transfer that made it. */
  lemma ReservationIsOnItsTerms(steps: seq<Step>, terms: Terms)
    requires Run(steps, terms).phase.Stored? || Run(steps, terms).phase.Sent?
    ensures var w := Run(steps, terms);
            var q, v, at := w.phase.q, w.phase.v, Find(w.journal, w.phase.q.id);
            && at.Some?
            && var r := w.journal[at.value];
               && Unsettled(r) && r.fingerprint == RequestFingerprint(q.id, q.signature) && r.payer == Some(v.payer)
               && multiset(r.Nullifiers()) == multiset(v.nullifiers)
               && if w.phase.retry
                  then r.Retries() != [] && var a := r.Retries()[|r.Retries()| - 1];
                       && a.outcome == RESERVED && a.broadcaster == v.broadcaster && a.quote == v.quote
                       && a.feesID == v.feesID && a.fee == v.fee
                  else r.Retries() == [] && r.broadcaster == Some(v.broadcaster) && r.quote == Some(v.quote)
                       && r.feesID == Some(v.feesID) && r.fee == Some(v.fee)
  {
    RunIsSafe(steps, terms);
    hide Run, JournalOk, MessagesOk, LedgerOk, RecordOk, Find;
  }

  /** Another reservation or recovery of the same payment. */
  ghost predicate StaysWith(w: World, q: Request, v: Reservation, terms: Terms) {
    && w.phase.Idle?
    && (var at := Find(w.journal, q.id);
        && at.Some?
        && var r := w.journal[at.value];
           && v.broadcaster in Asked(r)
           && Next(w, BeginRetry(q, v.payer), terms)
              == (if |r.Retries()| < 3 then w.(phase := Checked(q, v.payer, true, Asked(r))) else w)
           && Next(w, BeginRecovery(q.id, v.payer), terms) == w.(phase := Recovering(q.id, r.Nullifiers()))
           && multiset(r.Nullifiers()) == multiset(v.nullifiers))
    && (forall payer: RailgunAddress :: Next(w, BeginSend(q, payer), terms) == w)
    && (forall payer: RailgunAddress | payer != v.payer ::
          Next(w, BeginRetry(q, payer), terms) == w && Next(w, BeginRecovery(q.id, payer), terms) == w)
    && forall other: Request | other.id == q.id && other.signature != q.signature ::
         Next(w, BeginRetry(other, v.payer), terms) == w
  }

  /** The record of a request whose answer was unclear. */
  ghost predicate OpenFor(w: World, q: Request, v: Reservation) {
    && w.phase.Idle? && Readable(w.journal)
    && var at := Find(w.journal, q.id);
       && at.Some?
       && var r := w.journal[at.value];
          && Unsettled(r) && r.fingerprint == RequestFingerprint(q.id, q.signature) && r.payer == Some(v.payer)
          && multiset(r.Nullifiers()) == multiset(v.nullifiers) && v.broadcaster in Asked(r)
  }

  lemma UnclearStays(w: World, q: Request, v: Reservation, terms: Terms)
    requires OpenFor(w, q, v)
    ensures StaysWith(w, q, v, terms)
  {
    hide Next, Readable, Find, Asked;
    BeginsIff(w, q, v.payer, terms);
    forall payer: RailgunAddress
      ensures Next(w, BeginSend(q, payer), terms) == w
      ensures payer != v.payer ==>
                Next(w, BeginRetry(q, payer), terms) == w && Next(w, BeginRecovery(q.id, payer), terms) == w
    {
      BeginsIff(w, q, payer, terms);
    }
    forall other: Request | other.id == q.id && other.signature != q.signature
      ensures Next(w, BeginRetry(other, v.payer), terms) == w
    {
      BeginsIff(w, other, v.payer, terms);
    }
  }

  /** What recording an unclear answer keeps of a record in flight. */
  lemma NotedIsUnclear(
    j: Journal, after: Journal, q: Request, v: Reservation, retry: bool, code: AmbiguityCode, now: nat)
    requires JournalOk(j) && Readable(j) && Find(j, q.id).Some? && InFlight(j[Find(j, q.id).value], q, v, retry)
    requires Apply(j, DoMarkAmbiguous(q.id, code, if retry then Some(v.quote) else None), now) == Ok(after)
    requires JournalOk(after)
    ensures var at := Find(j, q.id);
            && Find(after, q.id) == at && at.value < |after| == |j|
            && var r := after[at.value];
               && Unsettled(r) && r.fingerprint == RequestFingerprint(q.id, q.signature) && r.payer == Some(v.payer)
               && multiset(r.Nullifiers()) == multiset(v.nullifiers) && v.broadcaster in Asked(r)
               && |r.Retries()| == |j[at.value].Retries()|
               && (!retry ==> Asked(r) == {v.broadcaster} && r.Retries() == [])
  {
    hide *;
    var retrying := if retry then Some(v.quote) else None;
    OperationOutcome(j, DoMarkAmbiguous(q.id, code, retrying), now);
    OutcomeOfAmbiguity(j, q.id, code, retrying, now, after);
    var k := Find(j, q.id).value;
    FoundIntent(j, q.id);
    InFlightIsUnsettled(j[k], q, v, retry);
    var s := NotedRecord(j, q.id, code, retrying, now, after);
    NotedKeeps(j[k], s, q, v, retry);
    FindAfterUpdate(j, k, s);
  }

  lemma OutcomeOfAmbiguity(
    j: Journal, id: IntentId, code: AmbiguityCode, retry: Option<QuoteFingerprint>, now: nat, after: Journal)
    requires Outcome(j, DoMarkAmbiguous(id, code, retry), now, Ok(after))
    ensures AmbiguityOutcome(j, id, code, retry, now, Ok(after))
  {
  }

  /** A record with a code more and an attempt settled. */
  ghost predicate NotedFrom(r: Record, s: Record) {
    && s == r.(ambiguity := s.ambiguity, retries := s.retries, updatedAt := s.updatedAt)
    && |s.Retries()| == |r.Retries()|
    && forall k | 0 <= k < |r.Retries()| :: s.Retries()[k].broadcaster == r.Retries()[k].broadcaster
  }

  lemma NotedRecord(
    j: Journal, id: IntentId, code: AmbiguityCode, retry: Option<QuoteFingerprint>, now: nat, after: Journal)
    returns (s: Record)
    requires AmbiguityOutcome(j, id, code, retry, now, Ok(after))
    ensures Find(j, id).Some? && after == j[Find(j, id).value := s] && NotedFrom(j[Find(j, id).value], s)
  {
    hide LastOpen, NoneOpen, CodeAdded, Find;
    var r := j[Find(j, id).value];
    s :| && Replaced(j, id, Ok(after), s) && CodeAdded(r.Codes(), s.Codes(), code) && s.ambiguity.Some?
         && s == r.(ambiguity := s.ambiguity, retries := s.retries, updatedAt := now)
         && if retry == None then s.retries == r.retries
            else s.retries.Some? && exists k ::
              LastOpen(r.Retries(), retry, k) && SettledAt(r.Retries(), s.Retries(), k, Ambiguous(code), now);
  }

  lemma InFlightIsUnsettled(r: Record, q: Request, v: Reservation, retry: bool)
    requires InFlight(r, q, v, retry)
    ensures Unsettled(r) && r.fingerprint == RequestFingerprint(q.id, q.signature) && r.payer == Some(v.payer)
    ensures multiset(r.Nullifiers()) == multiset(v.nullifiers)
  {
  }

  lemma NotedKeeps(r: Record, s: Record, q: Request, v: Reservation, retry: bool)
    requires InFlight(r, q, v, retry) && NotedFrom(r, s)
    ensures Unsettled(s) && s.fingerprint == RequestFingerprint(q.id, q.signature) && s.payer == Some(v.payer)
    ensures s.intentId == r.intentId && multiset(s.Nullifiers()) == multiset(v.nullifiers) && v.broadcaster in Asked(s)
    ensures |s.Retries()| == |r.Retries()| && (!retry ==> Asked(s) == {v.broadcaster} && s.Retries() == [])
  {
    if retry {
      var last := |r.Retries()| - 1;
      assert s.Retries()[last].broadcaster == v.broadcaster;
    }
  }

  lemma FindAfterUpdate(j: Journal, k: nat, s: Record)
    requires JournalOk(j) && k < |j| && s.intentId == j[k].intentId
    ensures Find(j[k := s], s.intentId) == Some(k)
  {
    hide ValidJournal;
    var at := Find(j[k := s], s.intentId);
    assert j[k := s][k] == s && s in j[k := s];
  }

  /** After an unclear answer that could be recorded, the payment stays with its payer and its signed request: they can
      retry it with the Broadcasters not yet asked and recover it, and nobody else, no other signature and no new send
      can. */
  lemma UnclearPaymentCanGoOn(steps: seq<Step>, code: AmbiguityCode, now: nat, terms: Terms)
    requires Run(steps, terms).phase.Sent?
    requires Readable(Run(steps + [Reply(PayerProtocol.Unclear(code), now)], terms).journal)
    ensures var before, after := Run(steps, terms), Run(steps + [Reply(PayerProtocol.Unclear(code), now)], terms);
            && StaysWith(after, before.phase.q, before.phase.v, terms)
            && var at := Find(after.journal, before.phase.q.id);
               && at.Some?
               && (!before.phase.retry ==>
                     Asked(after.journal[at.value]) == {before.phase.v.broadcaster}
                         && after.journal[at.value].Retries() == [])
  {
    hide *;
    var w, answer := Run(steps, terms), PayerProtocol.Unclear(code);
    RunIsSafe(steps, terms);
    RunIsSafe(steps + [Reply(answer, now)], terms);
    var after := Run(steps + [Reply(answer, now)], terms);
    RunExtends(steps, Reply(answer, now), terms);
    if !Readable(w.journal) { UnreadableStays(w, Reply(answer, now), terms); }
    JournalInOrder(w);
    JournalInOrder(after);
    SentFacts(w);
    UnclearOp(w.phase, code, now);
    var op := DoMarkAmbiguous(w.phase.q.id, code, if w.phase.retry then Some(w.phase.v.quote) else None);
    AnswerWrites(w, answer, now);
    ReadableApplies(w.journal, op, now);
    NextWrites(w, Reply(answer, now), op, now, Idle, terms);
    NotedIsUnclear(w.journal, after.journal, w.phase.q, w.phase.v, w.phase.retry, code, now);
    IsUnclear(after, w.phase.q, w.phase.v);
    UnclearStays(after, w.phase.q, w.phase.v, terms);
  }

  lemma IsUnclear(w: World, q: Request, v: Reservation)
    requires w.phase.Idle? && Readable(w.journal) && Find(w.journal, q.id).Some?
    requires var r := w.journal[Find(w.journal, q.id).value];
             && Unsettled(r) && r.fingerprint == RequestFingerprint(q.id, q.signature) && r.payer == Some(v.payer)
             && multiset(r.Nullifiers()) == multiset(v.nullifiers) && v.broadcaster in Asked(r)
    ensures OpenFor(w, q, v)
  {
  }

  lemma UnclearOp(phase: Phase, code: AmbiguityCode, now: nat)
    requires phase.Sent?
    ensures OpOf(phase, Reply(PayerProtocol.Unclear(code), now))
         == Some((DoMarkAmbiguous(phase.q.id, code, if phase.retry then Some(phase.v.quote) else None), now))
    ensures Then(phase, Reply(PayerProtocol.Unclear(code), now)) == Idle
  {
  }

  lemma ReadableApplies(j: Journal, op: Op, now: nat)
    requires Readable(j)
    ensures Apply(j, op, now) == Perform(j, op, now)
  {
    hide Perform;
  }

  lemma RunExtends(steps: seq<Step>, step: Step, terms: Terms)
    ensures Run(steps + [step], terms) == Next(Run(steps, terms), step, terms)
  {
    hide Next;
    RunStep(World([], Idle, [], [], []), steps, step, terms);
  }

  /** In particular a first transfer whose answer was unclear: the payer's own retry leaves out exactly the Broadcaster
      that was asked, the payer's recovery looks for the transaction's nullifiers, and another payer can do neither. */
  lemma UnclearTransferCanGoOn(
    steps: seq<Step>, q: Request, payer: RailgunAddress, p: Preparation, storedAt: nat, code: AmbiguityCode, now: nat,
    terms: Terms)
    requires var w := Run(steps, terms);
             && w.phase.Idle? && MayBegin(w.journal, q, payer, false, p)
             && QuotesStayLive(p, TriedBefore(w.journal, q, payer, false), terms)
             && Affordable(p) && !Conflicts(w.journal, q.id, p.nullifiers)
    requires var sending := [BeginSend(q, payer), Prepare(p), StoreReservation(storedAt), Send];
             Readable(Run(steps + sending + [Reply(PayerProtocol.Unclear(code), now)], terms).journal)
    ensures var sending := [BeginSend(q, payer), Prepare(p), StoreReservation(storedAt), Send];
            var sent := Run(steps + sending, terms);
            var after := Run(steps + sending + [Reply(PayerProtocol.Unclear(code), now)], terms);
            && sent.sent != [] && var m := sent.sent[|sent.sent| - 1];
               && m.ToBroadcaster? && m.intent == q.id && m.nullifiers == p.nullifiers
               && Next(after, BeginRetry(q, payer), terms) == after.(phase := Checked(q, payer, true, {m.broadcaster}))
               && (exists ns: seq<Nullifier> :: multiset(ns) == multiset(p.nullifiers)
                     && Next(after, BeginRecovery(q.id, payer), terms) == after.(phase := Recovering(q.id, ns)))
               && forall other: RailgunAddress | other != payer ::
                    Next(after, BeginRetry(q, other), terms) == after
                        && Next(after, BeginRecovery(q.id, other), terms) == after
  {
    hide *;
    var sending := [BeginSend(q, payer), Prepare(p), StoreReservation(storedAt), Send];
    BeginsAsSend(q, payer);
    PaymentCanBeSent(steps, q, payer, false, p, storedAt, terms);
    var sent, after := Run(steps + sending, terms),
        Run(steps + sending + [Reply(PayerProtocol.Unclear(code), now)], terms);
    UnclearPaymentCanGoOn(steps + sending, code, now, terms);
    RunIsSafe(steps + sending, terms);
    LastMessage(sent);
    OneAttempt(after, q, sent.phase.v, terms);
  }

  lemma BeginsAsSend(q: Request, payer: RailgunAddress)
    ensures BeginStep(q, payer, false) == BeginSend(q, payer)
  {
  }

  lemma OneAttempt(w: World, q: Request, v: Reservation, terms: Terms)
    requires StaysWith(w, q, v, terms) && Find(w.journal, q.id).Some?
    requires Asked(w.journal[Find(w.journal, q.id).value]) == {v.broadcaster}
    requires w.journal[Find(w.journal, q.id).value].Retries() == []
    ensures Next(w, BeginRetry(q, v.payer), terms) == w.(phase := Checked(q, v.payer, true, {v.broadcaster}))
    ensures exists ns: seq<Nullifier> :: multiset(ns) == multiset(v.nullifiers)
              && Next(w, BeginRecovery(q.id, v.payer), terms) == w.(phase := Recovering(q.id, ns))
    ensures forall other: RailgunAddress | other != v.payer ::
              Next(w, BeginRetry(q, other), terms) == w && Next(w, BeginRecovery(q.id, other), terms) == w
  {
    hide Next, Asked, Find;
  }

  // ---- From recovery to the recorded outcome ----------------------------------------------------

  /** A successful transaction on the chain that spent all of these. */
  ghost predicate Spent(ledger: seq<ChainTx>, ns: seq<Nullifier>, hash: Hash) {
    exists tx <- ledger :: tx.succeeded && tx.hash == hash && forall n <- ns :: n in tx.nullifiers
  }

  /** The record with the transaction, and with its outcome. */
  function WithHash(r: Record, hash: Hash, now: nat): Record {
    if r.status == SUBMITTED then r else r.(status := SUBMITTED, hash := Some(hash), updatedAt := now)
  }

  function WithOutcome(r: Record, blockNumber: nat, succeeded: bool, now: nat): Record {
    r.(status := if succeeded then MINED else REVERTED, blockNumber := Some(blockNumber), updatedAt := now)
  }

  /** A command that looks for its transaction finds one that spent the nullifiers, records its hash, and records the
      outcome that a receipt quorum reports for it: the record ends MINED or REVERTED accordingly, at that block, with
      that hash. The journal must stay readable up to the last write. */
  lemma RecoveryRecordsOutcome(
    steps: seq<Step>, hash: Hash, hashAt: nat, responses: seq<Option<Receipt>>, receipt: Rpc.Identity, receiptAt: nat,
    terms: Terms)
    requires var w := Run(steps, terms);
             && w.phase.Recovering? && Readable(w.journal) && Spent(w.ledger, w.phase.nullifiers, hash)
             && Rpc.SelectReceipt(hash, responses) == Some(receipt)
    requires Readable(Run(steps + [Recover(Some(hash)), StoreHash(hashAt)], terms).journal)
    ensures var w := Run(steps, terms);
            var after := Run(steps + [Recover(Some(hash)), StoreHash(hashAt), ReadReceipt(responses),
                StoreReceipt(receiptAt)], terms);
            var at := Find(w.journal, w.phase.intent);
            && after.phase.Idle? && at.Some?
            && after.journal == w.journal[at.value := WithOutcome(
                 WithHash(w.journal[at.value], hash, hashAt), receipt.blockNumber, receipt.succeeded, receiptAt)]
            && after.journal[at.value].hash == Some(hash)
  {
    hide *;
    var w := Run(steps, terms);
    RunIsSafe(steps, terms);
    var recover, store, read, finish := Recover(Some(hash)), StoreHash(hashAt), ReadReceipt(responses),
        StoreReceipt(receiptAt);
    SpentIsCompleted(w.ledger, w.phase.nullifiers, hash);
    RunSplits(steps, recover, store, read, finish, terms);
    NextRecover(w, Some(hash), terms);
    var found := Next(w, recover, terms);
    NextKeeps(w, recover, terms);
    HashGoesThrough(found, hashAt);
    NextStoreHash(found, hashAt, terms);
    var marked := Next(found, store, terms);
    NextKeeps(found, store, terms);
    NextRead(marked, responses, terms);
    var witnessed := Next(marked, read, terms);
    NextKeeps(marked, read, terms);
    OutcomeGoesThrough(witnessed, receiptAt);
    NextStoreReceipt(witnessed, receiptAt, terms);
    TwoUpdates(w.journal, marked.journal, Next(witnessed, finish, terms).journal, w.phase.intent, hash, hashAt,
               receipt.blockNumber, receipt.succeeded, receiptAt);
  }

  lemma SpentIsCompleted(ledger: seq<ChainTx>, ns: seq<Nullifier>, hash: Hash)
    requires Spent(ledger, ns, hash)
    ensures Completed(ledger, ns, hash)
  {
  }

  lemma RunSplits(steps: seq<Step>, a: Step, b: Step, c: Step, d: Step, terms: Terms)
    ensures Run(steps + [a, b], terms) == Next(Next(Run(steps, terms), a, terms), b, terms)
    ensures Run(steps + [a, b, c, d], terms)
         == Next(Next(Next(Next(Run(steps, terms), a, terms), b, terms), c, terms), d, terms)
  {
    hide *;
    RunExtends(steps, a, terms);
    RunExtends(steps + [a], b, terms);
    RunExtends(steps + [a] + [b], c, terms);
    RunExtends(steps + [a] + [b] + [c], d, terms);
    assert steps + [a] + [b] == steps + [a, b];
    assert steps + [a] + [b] + [c] + [d] == steps + [a, b, c, d];
  }

  lemma SubmitsHash(j: Journal, id: IntentId, hash: Hash, now: nat, after: Journal)
    requires Outcome(j, DoMarkSubmitted(id, hash), now, Ok(after))
    requires Find(j, id).Some? && (j[Find(j, id).value].status == SUBMITTED ==> j[Find(j, id).value].hash.Some?)
    ensures var at := Find(j, id); after == j[at.value := WithHash(j[at.value], hash, now)]
    ensures WithHash(j[Find(j, id).value], hash, now).hash == Some(hash)
    ensures WithHash(j[Find(j, id).value], hash, now).intentId == id
  {
    hide Find;
    FoundIntent(j, id);
    var k := Find(j, id).value;
    assert j[k := j[k]] == j;
  }

  lemma HashGoesThrough(w: World, now: nat)
    requires Inv(w) && w.phase.Found? && Readable(w.journal)
    ensures var at, id, hash := Find(w.journal, w.phase.intent), w.phase.intent, w.phase.hash;
            && at.Some?
            && var s := WithHash(w.journal[at.value], hash, now);
               && s.hash == Some(hash) && s.intentId == id && JournalOk(w.journal)
               && Reading(w.journal, MarkSubmitted(w.journal, id, hash, now)) == Ok(w.journal[at.value := s])
  {
    hide *;
    var op := DoMarkSubmitted(w.phase.intent, w.phase.hash);
    HashOp(w.phase, op, now);
    ProgressWrites(w, StoreHash(now));
    ReadableApplies(w.journal, op, now);
    AppliesMarks(w.journal, w.phase.intent, w.phase.hash, 0, true, now);
    FoundFacts(w);
    JournalInOrder(w);
    OperationOutcome(w.journal, op, now);
    SubmitsHash(w.journal, w.phase.intent, w.phase.hash, now, Apply(w.journal, op, now).value);
  }

  lemma AppliesMarks(j: Journal, id: IntentId, hash: Hash, blockNumber: nat, succeeded: bool, now: nat)
    ensures Apply(j, DoMarkSubmitted(id, hash), now) == Reading(j, MarkSubmitted(j, id, hash, now))
    ensures Apply(j, DoMarkMined(id, blockNumber, succeeded), now)
            == Reading(j, MarkMined(j, id, blockNumber, succeeded, now))
  {
    hide MarkSubmitted, MarkMined, Readable;
  }

  lemma MinesRecord(j: Journal, id: IntentId, blockNumber: nat, succeeded: bool, now: nat, after: Journal)
    requires Outcome(j, DoMarkMined(id, blockNumber, succeeded), now, Ok(after))
    requires Find(j, id).Some? && j[Find(j, id).value].status == SUBMITTED
    ensures var at := Find(j, id); after == j[at.value := WithOutcome(j[at.value], blockNumber, succeeded, now)]
  {
    hide Find;
  }

  lemma OutcomeGoesThrough(w: World, now: nat)
    requires Inv(w) && w.phase.Witnessed? && Readable(w.journal)
    ensures var at, id, receipt := Find(w.journal, w.phase.intent), w.phase.intent, w.phase.receipt;
            && at.Some?
            && Reading(w.journal, MarkMined(w.journal, id, receipt.blockNumber, receipt.succeeded, now))
               == Ok(w.journal[at.value :=
                   WithOutcome(w.journal[at.value], receipt.blockNumber, receipt.succeeded, now)])
  {
    hide *;
    var id, receipt := w.phase.intent, w.phase.receipt;
    var op := DoMarkMined(id, receipt.blockNumber, receipt.succeeded);
    ReceiptOp(w.phase, op, now);
    ProgressWrites(w, StoreReceipt(now));
    ReadableApplies(w.journal, op, now);
    AppliesMarks(w.journal, id, 0, receipt.blockNumber, receipt.succeeded, now);
    StatusAtWitness(w);
    JournalInOrder(w);
    OperationOutcome(w.journal, op, now);
    MinesRecord(w.journal, id, receipt.blockNumber, receipt.succeeded, now, Apply(w.journal, op, now).value);
  }

  lemma TwoUpdates(
    j: Journal, marked: Journal, after: Journal, id: IntentId, hash: Hash, hashAt: nat, blockNumber: nat,
    succeeded: bool, receiptAt: nat)
    requires JournalOk(j) && Find(j, id).Some? && WithHash(j[Find(j, id).value], hash, hashAt).intentId == id
    requires WithHash(j[Find(j, id).value], hash, hashAt).hash == Some(hash)
    requires marked == j[Find(j, id).value := WithHash(j[Find(j, id).value], hash, hashAt)]
    requires Find(marked, id).Some?
    requires var at := Find(marked, id);
             after == marked[at.value := WithOutcome(marked[at.value], blockNumber, succeeded, receiptAt)]
    ensures var at := Find(j, id);
            && after == j[at.value := WithOutcome(WithHash(j[at.value], hash, hashAt), blockNumber, succeeded,
                 receiptAt)]
            && after[at.value].hash == Some(hash)
  {
    FoundIntent(j, id);
    FindAfterUpdate(j, Find(j, id).value, WithHash(j[Find(j, id).value], hash, hashAt));
    hide Find, WithHash;
  }

  /** A reported hash that could be recorded leads the command on to look for the transaction. */
  lemma ReportLeadsToRecovery(steps: seq<Step>, hash: Hash, now: nat, terms: Terms)
    requires Run(steps, terms).phase.Sent? && Readable(Run(steps, terms).journal)
    ensures var w := Run(steps, terms);
            Run(steps + [Reply(Reports(hash), now)], terms).phase == Recovering(w.phase.q.id, w.phase.v.nullifiers)
  {
    hide *;
    var w := Run(steps, terms);
    RunIsSafe(steps, terms);
    RunExtends(steps, Reply(Reports(hash), now), terms);
    AnswerWrites(w, Reports(hash), now);
    ReportOp(w.phase, hash, now);
    ReadableApplies(w.journal, DoMarkReported(w.phase.q.id, hash), now);
    NextWrites(w, Reply(Reports(hash), now), DoMarkReported(w.phase.q.id, hash), now,
               Recovering(w.phase.q.id, w.phase.v.nullifiers), terms);
  }

  lemma ReportOp(phase: Phase, hash: Hash, now: nat)
    requires phase.Sent?
    ensures OpOf(phase, Reply(Reports(hash), now)) == Some((DoMarkReported(phase.q.id, hash), now))
    ensures Then(phase, Reply(Reports(hash), now)) == Recovering(phase.q.id, phase.v.nullifiers)
  {
  }

  // ---- Self-signed payments ---------------------------------------------------------------------

  /** A stored self-signed transaction. */
  predicate SignedAs(r: Record, q: Request, signer: EvmAddress, hash: Hash, nonce: nat) {
    && r.intentId == q.id && r.fingerprint == RequestFingerprint(q.id, q.signature) && r.mode == SELF_SIGNED
    && r.selfSigner == Some(signer) && r.nonce == Some(nonce) && r.hash == Some(hash)
  }

  lemma SelfReservation(
    w: World, signer: EvmAddress, hash: Hash, nonce: nat, now: nat, terms: Terms) returns (r: Record)
    requires Inv(w) && w.phase.SelfChecked?
    ensures Next(w, StoreSelfSigned(signer, hash, nonce, now), terms)
         == w.(journal := w.journal + [r], phase := SelfStored(w.phase.q, hash))
    ensures SignedAs(r, w.phase.q, signer, hash, nonce) && r.status == SUBMITTING
  {
    hide *;
    var step, op := StoreSelfSigned(signer, hash, nonce, now), DoReserve(w.phase.q, signer, hash, nonce);
    SelfStoreOp(w.phase, step, op);
    ReservationWrites(w, step);
    SelfCanStore(w, step);
    SelfCheckedReads(w);
    JournalInOrder(w);
    OperationOutcome(w.journal, op, now);
    r := ReservedLast(w.journal, w.phase.q, signer, hash, nonce, now, Apply(w.journal, op, now).value);
    NextWrites(w, step, op, now, SelfStored(w.phase.q, hash), terms);
  }

  lemma SelfCanStore(w: World, step: Step)
    requires w.phase.SelfChecked?
    ensures !CannotStore(w, step)
  {
  }

  lemma SelfCheckedReads(w: World)
    requires Inv(w) && w.phase.SelfChecked?
    ensures Readable(w.journal)
  {
    hide JournalOk, MessagesOk, LedgerOk, RecordOk, Readable;
  }

  lemma ReservedLast(
    j: Journal, q: Request, signer: EvmAddress, hash: Hash, nonce: nat, now: nat, after: Journal) returns (r: Record)
    requires Outcome(j, DoReserve(q, signer, hash, nonce), now, Ok(after))
    ensures after == j + [r] && SignedAs(r, q, signer, hash, nonce) && r.status == SUBMITTING
  {
    hide Find;
    r := after[|j|];
  }

  lemma SelfHash(w: World, now: nat, terms: Terms)
    requires Inv(w) && w.phase.SelfSent? && Readable(w.journal)
    ensures var at := Find(w.journal, w.phase.q.id);
            && at.Some?
            && Next(w, StoreSelfSignedHash(now), terms)
               == w.(journal := w.journal[at.value := WithHash(w.journal[at.value], w.phase.hash, now)],
                     phase := SelfMarked(w.phase.q, w.phase.hash))
  {
    hide *;
    var op := DoMarkSubmitted(w.phase.q.id, w.phase.hash);
    SelfHashOp(w.phase, op, now);
    ProgressWrites(w, StoreSelfSignedHash(now));
    ReadableApplies(w.journal, op, now);
    SignedWhenSent(w);
    JournalInOrder(w);
    OperationOutcome(w.journal, op, now);
    SubmitsHash(w.journal, w.phase.q.id, w.phase.hash, now, Apply(w.journal, op, now).value);
    NextWrites(w, StoreSelfSignedHash(now), op, now, SelfMarked(w.phase.q, w.phase.hash), terms);
  }

  lemma SelfOutcome(w: World, block: nat, succeeded: bool, now: nat, terms: Terms)
    requires Inv(w) && w.phase.SelfMarked? && Readable(w.journal)
    ensures var at := Find(w.journal, w.phase.q.id);
            && at.Some?
            && Next(w, StoreSelfSignedReceipt(block, succeeded, now), terms)
               == w.(journal := w.journal[at.value := WithOutcome(w.journal[at.value], block, succeeded, now)], phase :=
                   Idle)
  {
    hide *;
    var step, op := StoreSelfSignedReceipt(block, succeeded, now), DoMarkMined(w.phase.q.id, block, succeeded);
    SelfReceiptOp(w.phase, step, op);
    ProgressWrites(w, step);
    ReadableApplies(w.journal, op, now);
    SubmittedWhenMarked(w);
    JournalInOrder(w);
    OperationOutcome(w.journal, op, now);
    MinesRecord(w.journal, w.phase.q.id, block, succeeded, now, Apply(w.journal, op, now).value);
    NextWrites(w, step, op, now, Idle, terms);
  }

  lemma LastIsFound(j: Journal, r: Record)
    requires Find(j, r.intentId).None?
    ensures Find(j + [r], r.intentId) == Some(|j|)
  {
    assert (j + [r])[|j|] == r && r in j + [r];
    forall k | 0 <= k < |j| ensures (j + [r])[k].intentId != r.intentId { assert j[k] in j; }
  }

  lemma StillLast(j: Journal, r: Record, hash: Hash, hashAt: nat, block: nat, succeeded: bool, receiptAt: nat)
    requires r.status == SUBMITTING
    ensures WithHash(r, hash, hashAt) == r.(status := SUBMITTED, hash := Some(hash), updatedAt := hashAt)
    ensures (j + [r])[|j| := WithHash(r, hash, hashAt)] == j + [WithHash(r, hash, hashAt)]
    ensures forall s, t :: (j + [s])[|j| := t] == j + [t]
  {
  }

  /** A self-signed payment of a new request leaves as the transaction that was stored, and its record ends with that
      signer, nonce and hash and with the outcome that was waited for, if the journal stays readable meanwhile. */
  lemma SelfSignedIsRecorded(
    steps: seq<Step>, q: Request, signer: EvmAddress, hash: Hash, nonce: nat, storedAt: nat, hashAt: nat, block: nat,
    succeeded: bool, receiptAt: nat, terms: Terms)
    requires Run(steps, terms).phase.Idle? && Readable(Run(steps, terms).journal)
             && Find(Run(steps, terms).journal, q.id).None?
    requires var begin, store := BeginSelfSigned(q), StoreSelfSigned(signer, hash, nonce, storedAt);
             && Readable(Run(steps + [begin, store, SendSelfSigned], terms).journal)
             && Readable(Run(steps + [begin, store, SendSelfSigned, StoreSelfSignedHash(hashAt)], terms).journal)
    ensures var w := Run(steps, terms);
            var after := Run(steps + [
              BeginSelfSigned(q), StoreSelfSigned(signer, hash, nonce, storedAt), SendSelfSigned,
              StoreSelfSignedHash(hashAt), StoreSelfSignedReceipt(block, succeeded, receiptAt)], terms);
            && after.phase.Idle? && after.sent == w.sent + [SelfSigned(q.id, hash)]
            && |after.journal| == |w.journal| + 1 && after.journal[..|w.journal|] == w.journal
            && var r := after.journal[|w.journal|];
               && SignedAs(r, q, signer, hash, nonce)
               && r.status == (if succeeded then MINED else REVERTED) && r.blockNumber == Some(block)
  {
    hide *;
    var w := Run(steps, terms);
    var begin, store, send := BeginSelfSigned(q), StoreSelfSigned(signer, hash, nonce, storedAt), SendSelfSigned;
    var mark, finish := StoreSelfSignedHash(hashAt), StoreSelfSignedReceipt(block, succeeded, receiptAt);
    RunIsSafe(steps, terms);
    RunSplits(steps, begin, store, send, mark, terms);
    RunExtends(steps + [begin, store], send, terms);
    RunExtends(steps + [begin, store, send, mark], finish, terms);
    assert steps + [begin, store] + [send] == steps + [begin, store, send];
    assert steps + [begin, store, send, mark] + [finish] == steps + [begin, store, send, mark, finish];
    NextBeginSelfSigned(w, q, terms);
    var begun := Next(w, begin, terms);
    NextKeeps(w, begin, terms);
    var r := SelfReservation(begun, signer, hash, nonce, storedAt, terms);
    var stored := Next(begun, store, terms);
    NextKeeps(begun, store, terms);
    NextSendSelfSigned(stored, terms);
    var sent := Next(stored, send, terms);
    NextKeeps(stored, send, terms);
    LastIsFoundHere(w.journal, r, q, signer, hash, nonce);
    SelfHash(sent, hashAt, terms);
    StillLast(w.journal, r, hash, hashAt, block, succeeded, receiptAt);
    var s := WithHash(r, hash, hashAt);
    var marked := Next(sent, mark, terms);
    NextKeeps(sent, mark, terms);
    HashFields(r, q, signer, hash, nonce, hashAt);
    LastIsFoundHere(w.journal, s, q, signer, hash, nonce);
    SelfOutcome(marked, block, succeeded, receiptAt, terms);
    OutcomeFields(s, q, signer, hash, nonce, block, succeeded, receiptAt);
  }

  lemma LastIsFoundHere(j: Journal, r: Record, q: Request, signer: EvmAddress, hash: Hash, nonce: nat)
    requires Find(j, q.id).None? && SignedAs(r, q, signer, hash, nonce)
    ensures Find(j + [r], q.id) == Some(|j|) && r.intentId == q.id
  {
    LastIsFound(j, r);
  }

  lemma HashFields(r: Record, q: Request, signer: EvmAddress, hash: Hash, nonce: nat, now: nat)
    requires SignedAs(r, q, signer, hash, nonce)
    ensures SignedAs(WithHash(r, hash, now), q, signer, hash, nonce)
  {
  }

  lemma OutcomeFields(
    s: Record, q: Request, signer: EvmAddress, hash: Hash, nonce: nat, block: nat, succeeded: bool, now: nat)
    requires SignedAs(s, q, signer, hash, nonce)
    ensures var r := WithOutcome(s, block, succeeded, now);
            && SignedAs(r, q, signer, hash, nonce)
            && r.status == (if succeeded then MINED else REVERTED) && r.blockNumber == Some(block)
  {
  }
}
