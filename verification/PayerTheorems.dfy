/** What holds in every state that runs of the payer reach, whatever crashes, responses and transactions occur. */
module PayerTheorems {
  import opened Results
  import opened Sequences
  import opened JournalModel
  import opened JournalSize
  import opened JournalFacts
  import opened BroadcasterSelection
  import opened PayerProtocol
  import opened PayerInvariant
  import opened PayerSteps
  import opened Quorum
  import Rpc = ReceiptQuorum

  lemma RunIsSafe(steps: seq<Step>, terms: Terms)
    ensures Inv(Run(steps, terms))
  {
    assert Inv(World([], Idle, [], [], []));
    RunKeeps(World([], Idle, [], [], []), steps, terms);
  }

  // ---- Messages ---------------------------------------------------------------------------------

  /** A message leaves only when the journal on disk already holds its reservation: unresolved, with these
      nullifiers, and with this Broadcaster as its last, unanswered one. */
  lemma SendFollowsReservation(steps: seq<Step>, step: Step, terms: Terms)
    requires var w := Run(steps, terms);
             |Next(w, step, terms).sent| > |w.sent|
    ensures var w := Run(steps, terms);
            var after := Next(w, step, terms);
            && after.journal == w.journal && |after.sent| == |w.sent| + 1
            && var m := after.sent[|w.sent|];
               var at := Find(w.journal, m.intent);
               && at.Some?
               && var r := w.journal[at.value];
                  match m
                  case ToBroadcaster(_, broadcaster, _, ns) =>
                    && r.mode == BROADCASTER && Unresolved(r) && multiset(r.Nullifiers()) == multiset(ns)
                    && (if r.Retries() == [] then r.broadcaster == Some(broadcaster)
                        else
                          var a := r.Retries()[|r.Retries()| - 1];
                          a.outcome == RESERVED && a.broadcaster == broadcaster)
                  case SelfSigned(_, hash) => r.mode == SELF_SIGNED && r.status == SUBMITTING && r.hash == Some(hash)
  {
    hide *;
    RunIsSafe(steps, terms);
    var w := Run(steps, terms);
    Sending(w, step, terms);
    if w.phase.Stored? { ReservedWhenStored(w); } else { SignedWhenStored(w); }
  }

  /** A step that adds to the messages adds the one of the running command. */
  lemma Sending(w: World, step: Step, terms: Terms)
    requires |Next(w, step, terms).sent| > |w.sent|
    ensures w.phase.Stored? || w.phase.SelfStored?
    ensures var after := Next(w, step, terms);
            && after.journal == w.journal
            && after.sent == w.sent + [if w.phase.Stored?
                 then ToBroadcaster(w.phase.q.id, w.phase.v.broadcaster, w.phase.v.feesID, w.phase.v.nullifiers)
                 else SelfSigned(w.phase.q.id, w.phase.hash)]
  {
    hide Apply, OpOf, Begin, Plan, Minable, Completed, Rpc.SelectReceipt;
    assert OpOf(w.phase, step).None?;
  }

  lemma ReservedWhenStored(w: World)
    requires Inv(w) && w.phase.Stored?
    ensures var v, at := w.phase.v, Find(w.journal, w.phase.q.id);
            && at.Some?
            && var r := w.journal[at.value];
               && r.mode == BROADCASTER && Unresolved(r) && multiset(r.Nullifiers()) == multiset(v.nullifiers)
               && if r.Retries() == [] then r.broadcaster == Some(v.broadcaster)
                  else var a := r.Retries()[|r.Retries()| - 1]; a.outcome == RESERVED && a.broadcaster == v.broadcaster
  {
    hide JournalOk, MessagesOk, LedgerOk, RecordOk, Find;
  }

  lemma SignedWhenStored(w: World)
    requires Inv(w) && w.phase.SelfStored?
    ensures Find(w.journal, w.phase.q.id).Some?
    ensures var r := w.journal[Find(w.journal, w.phase.q.id).value];
            r.mode == SELF_SIGNED && r.status == SUBMITTING && r.hash == Some(w.phase.hash)
  {
    hide JournalOk, MessagesOk, LedgerOk, RecordOk, Find;
  }

  /** All messages for one intent go the same way. To Broadcasters they carry the same nullifiers, go to different
      Broadcasters, and are at most four. */
  lemma MessagesAgree(steps: seq<Step>, a: nat, b: nat, terms: Terms)
    requires var sent := Run(steps, terms).sent; a < b < |sent| && sent[a].intent == sent[b].intent
    ensures var sent := Run(steps, terms).sent;
            && sent[a].ToBroadcaster? == sent[b].ToBroadcaster?
            && (sent[a].ToBroadcaster? ==>
                  && multiset(sent[a].nullifiers) == multiset(sent[b].nullifiers)
                  && sent[a].broadcaster != sent[b].broadcaster)
            && (sent[a].SelfSigned? ==> sent[a].hash == sent[b].hash)
            && Sends(sent, sent[a].intent) <= 1 + MAX_RETRIES
  {
    RunIsSafe(steps, terms);
    hide PhaseOk, LedgerOk;
    var w := Run(steps, terms);
    hide Run;
    assert w.sent[a] in w.sent && w.sent[b] in w.sent;
    assert Covered(w.journal, w.sent[a]) && Covered(w.journal, w.sent[b]);
    SendsBounded(w, w.sent[a].intent);
  }

  lemma SendsBounded(w: World, id: IntentId)
    requires Inv(w)
    ensures Sends(w.sent, id) <= 1 + MAX_RETRIES
    ensures Find(w.journal, id).None? ==> Sends(w.sent, id) == 0
  {
    hide PhaseOk, LedgerOk;
    var at := Find(w.journal, id);
    if at.None? {
      NotSentYet(w, id);
    } else {
      var r := w.journal[at.value];
      assert r in w.journal && RecordOk(w, r) && ValidRecord(r);
      if r.mode == SELF_SIGNED { SelfSignedSendsNothing(w, id); }
    }
  }

  lemma SelfSignedSendsNothing(w: World, id: IntentId)
    requires Inv(w) && Find(w.journal, id).Some? && w.journal[Find(w.journal, id).value].mode == SELF_SIGNED
    ensures Sends(w.sent, id) == 0
  {
    hide JournalOk, PhaseOk, LedgerOk, RecordOk;
    forall m <- w.sent | m.ToBroadcaster? ensures m.intent != id { assert Covered(w.journal, m); }
    NoSends(w.sent, id);
  }

  lemma NotDisjoint(ns: seq<Nullifier>, a: seq<Nullifier>, b: seq<Nullifier>)
    requires ns != [] && multiset(ns) == multiset(a) == multiset(b)
    ensures !Disjoint(a, b)
  {
    SameElements(ns, a);
    SameElements(ns, b);
    assert ns[0] in a && ns[0] in b;
  }

  // ---- The chain --------------------------------------------------------------------------------

  /** At most one of the payloads sent to Broadcasters for an intent is ever mined successfully, even if every
      Broadcaster submits its own, repeatedly. */
  lemma AtMostOnePaymentMined(steps: seq<Step>, i: nat, j: nat, terms: Terms)
    requires var w := Run(steps, terms);
             && i < j < |w.ledger| && w.ledger[i].succeeded && w.ledger[j].succeeded
             && w.ledger[i].origin.Some? && w.ledger[j].origin.Some?
             && w.ledger[i].origin.value < |w.sent| && w.ledger[j].origin.value < |w.sent|
             && w.sent[w.ledger[i].origin.value].ToBroadcaster? && w.sent[w.ledger[j].origin.value].ToBroadcaster?
    ensures var w := Run(steps, terms);
            w.sent[w.ledger[i].origin.value].intent != w.sent[w.ledger[j].origin.value].intent
  {
    RunIsSafe(steps, terms);
    hide PhaseOk, RecordOk;
    var w := Run(steps, terms);
    hide Run;
    var a, b := w.ledger[i], w.ledger[j];
    var m, n := w.sent[a.origin.value], w.sent[b.origin.value];
    assert a in w.ledger && b in w.ledger && m in w.sent && n in w.sent;
    if m.intent == n.intent {
      assert Covered(w.journal, m) && Covered(w.journal, n);
      var r := w.journal[Find(w.journal, m.intent).value];
      assert r in w.journal && ValidRecord(r);
      NotDisjoint(r.Nullifiers(), a.nullifiers, b.nullifiers);
    }
  }

  // ---- Records ----------------------------------------------------------------------------------

  /** What the status of a Broadcaster record says about messages and the chain. */
  lemma RecordsTellTheTruth(steps: seq<Step>, r: Record, terms: Terms)
    requires r in Run(steps, terms).journal && r.mode == BROADCASTER
    ensures var w := Run(steps, terms);
            && |r.Retries()| <= MAX_RETRIES && |r.Codes()| <= 1 + |r.Retries()|
            && Sends(w.sent, r.intentId) <= 1 + |r.Retries()|
            && TriedOnce(r)
            && (r.status == SUBMITTING ==> r.hash.None?)
            && (r.status == REJECTED ==>
                  Sends(w.sent, r.intentId) == 1 && r.Codes() == [] && r.Retries() == [] && r.hash.None?
                      && r.reported.None?)
            && (r.hash.Some? ==> Completed(w.ledger, r.Nullifiers(), r.hash.value))
            && (r.status in {MINED, REVERTED} ==> exists read <- w.observed :: Backed(read, r))
  {
    RunIsSafe(steps, terms);
    hide PhaseOk, LedgerOk, MessagesOk;
    assert RecordOk(Run(steps, terms), r) && ValidRecord(r);
  }

  /** If in every round of receipt requests of the run fewer providers than required were faulty, each recorded
      outcome of a Broadcaster payment was reported, for the record's own hash, by a correct provider. */
  lemma OutcomeRestsOnCorrectProvider(steps: seq<Step>, r: Record, faulty: set<nat>, terms: Terms)
    returns (read: Read, i: nat)
    requires r in Run(steps, terms).journal && r.mode == BROADCASTER && r.status in {MINED, REVERTED}
    requires forall read <- Run(steps, terms).observed :: |faulty| < Rpc.RequiredAgreement(|read.responses|)
    ensures read in Run(steps, terms).observed && Backed(read, r)
    ensures i !in faulty && i < |read.responses| && read.responses[i].Some?
    ensures Some(read.responses[i].value.hash) == r.hash && Some(read.responses[i].value.blockNumber) == r.blockNumber
    ensures read.responses[i].value.status == Some(if r.status == MINED then 1 else 0)
  {
    RecordsTellTheTruth(steps, r, terms);
    read :| read in Run(steps, terms).observed && Backed(read, r);
    hide Run;
    i := Rpc.SelectedReceiptIsVouchedFor(read.hash, read.responses, faulty);
  }

  /** Active reservations of different intents never share a nullifier. */
  lemma ActiveReservationsAreDisjoint(steps: seq<Step>, a: nat, b: nat, terms: Terms)
    requires var j := Run(steps, terms).journal; a < b < |j| && Active(j[a]) && Active(j[b])
    ensures var j := Run(steps, terms).journal;
            j[a].intentId != j[b].intentId && Disjoint(j[a].Nullifiers(), j[b].Nullifiers())
  {
    RunIsSafe(steps, terms);
    hide PhaseOk, LedgerOk, MessagesOk, RecordOk;
  }

  lemma {:induction false} JournalMovesForward(steps: seq<Step>, n: nat, terms: Terms)
    requires n <= |steps|
    ensures Onward(Run(steps[..n], terms).journal, Run(steps, terms).journal)
  {
    hide *;
    if n == |steps| {
      assert steps[..n] == steps;
      OnwardReflexive(Run(steps, terms).journal);
    } else {
      var last := |steps| - 1;
      JournalMovesForward(steps[..last], n, terms);
      assert steps[..last][..n] == steps[..n];
      var w := Run(steps[..last], terms);
      RunLast(steps, terms);
      StepIsOnward(w, steps[last], terms);
      OnwardTransitive(Run(steps[..n], terms).journal, w.journal, Run(steps, terms).journal);
    }
  }

  /** The journal changes by the operation of the step, and by nothing else. */
  /** Correct providers report what the chain holds: success exactly of a transaction that succeeded. */
  ghost predicate ToldTruly(w: World, faulty: set<nat>) {
    forall read <- w.observed :: forall i: nat ::
      i < |read.responses| && i !in faulty && read.responses[i].Some? ==>
          ReportsTruly(read.responses[i].value, w.ledger)
  }

  predicate ReportsTruly(receipt: Receipt, ledger: seq<ChainTx>) {
    receipt.status == Some(1) <==> exists tx <- ledger :: tx.succeeded && tx.hash == receipt.hash
  }

  lemma SuccessIsReported(w: World, faulty: set<nat>, read: Read, i: nat, ns: seq<Nullifier>)
    requires ToldTruly(w, faulty) && read in w.observed && i < |read.responses| && i !in faulty
    requires read.responses[i].Some? && Completed(w.ledger, ns, read.responses[i].value.hash)
    ensures read.responses[i].value.status == Some(1)
  {
    assert ReportsTruly(read.responses[i].value, w.ledger);
  }

  /** The hash that recovery finds is the hash of a success, so with too few faulty providers no payment that went to
      Broadcasters is ever recorded as reverted: an outcome that is recorded is MINED. */
  lemma TruthfulProvidersSeeNoReversal(steps: seq<Step>, r: Record, faulty: set<nat>, terms: Terms)
    requires r in Run(steps, terms).journal && r.mode == BROADCASTER && ToldTruly(Run(steps, terms), faulty)
    requires forall read <- Run(steps, terms).observed :: |faulty| < Rpc.RequiredAgreement(|read.responses|)
    ensures r.status != REVERTED
  {
    hide Run, Backed, Rpc.SelectReceipt;
    if r.status == REVERTED {
      var read, i := OutcomeRestsOnCorrectProvider(steps, r, faulty, terms);
      RecordsTellTheTruth(steps, r, terms);
      SuccessIsReported(Run(steps, terms), faulty, read, i, r.Nullifiers());
    }
  }

  lemma NextJournal(w: World, step: Step, terms: Terms)
    ensures Next(w, step, terms).journal
         == if OpOf(w.phase, step).Some?
            then After(w.journal, OpOf(w.phase, step).value.0, OpOf(w.phase, step).value.1)
            else w.journal
  {
    hide Apply, OpOf, Begin, Plan, Minable, Completed, Rpc.SelectReceipt;
  }

  lemma OnwardReflexive(j: Journal)
    ensures Onward(j, j)
  {
  }

  lemma StepIsOnward(w: World, step: Step, terms: Terms)
    ensures Onward(w.journal, Next(w, step, terms).journal)
  {
    NextJournal(w, step, terms);
    hide Next, After, OpOf, Change;
    if OpOf(w.phase, step).Some? {
      var (op, now) := OpOf(w.phase, step).value;
      ApplyChanges(w.journal, op, now);
      ChangeIsOnward(w.journal, After(w.journal, op, now), Subject(op));
    }
  }

  // ---- Writes -----------------------------------------------------------------------------------

  /** Why a write of a running command throws: the transaction of a retry spends other nullifiers than the reservation;
      or, once a reservation is stored, the journal has outgrown what can be read back. */
  predicate CannotStore(w: World, step: Step) {
    match (w.phase, step)
    case (Prepared(q, v, true), StoreReservation(_)) =>
      var at := Find(w.journal, q.id);
      at.Some? && !SameNullifierSet(w.journal[at.value].Nullifiers(), v.nullifiers)
    case (Prepared(_, _, false), _) => false
    case (SelfChecked(_), _) => false
    case _ => !Readable(w.journal)
  }

  /** A first reservation always goes through: the command has read the journal, and a journal that can be read is
      far from the limit on records. */
  lemma FirstWrites(w: World, now: nat)
    requires Inv(w) && w.phase.Prepared? && !w.phase.retry
    ensures Reading(w.journal, ReserveBroadcaster(w.journal, w.phase.q, w.phase.v, now)).Ok?
  {
    hide MessagesOk, LedgerOk, RecordOk;
    PerformRefused(w.journal, DoReserveBroadcaster(w.phase.q, w.phase.v), now);
    ReadableIsBelowCapacity(w.journal);
    assert Find(w.journal, w.phase.q.id).None? && GoodReservation(w.phase.v);
    assert !Conflicts(w.journal, w.phase.q.id, w.phase.v.nullifiers);
    hide Inv, Conflicts, GoodReservation, ValidJournal, Readable;
  }

  lemma RetryWrites(w: World, now: nat)
    requires Inv(w) && w.phase.Prepared? && w.phase.retry
    ensures Find(w.journal, w.phase.q.id).Some?
    ensures Reading(w.journal, ReserveRetry(w.journal, w.phase.q, w.phase.v, now)).Thrown?
       <==> !SameNullifierSet(w.journal[Find(w.journal, w.phase.q.id).value].Nullifiers(), w.phase.v.nullifiers)
  {
    hide MessagesOk, LedgerOk, RecordOk;
    PerformRefused(w.journal, DoReserveRetry(w.phase.q, w.phase.v), now);
    var r := w.journal[Find(w.journal, w.phase.q.id).value];
    assert ValidRecord(r) by { assert r in w.journal; }
    assert Retriable(r, w.phase.q, w.phase.v.payer) && w.phase.v.fee > 0 && r.nullifiers.Some?;
    hide Inv, ValidJournal, ValidRecord, SameNullifierSet, Readable;
  }

  lemma SelfSignedWrites(w: World, step: Step)
    requires Inv(w) && w.phase.SelfChecked? && step.StoreSelfSigned?
    ensures Reading(w.journal, Reserve(w.journal, w.phase.q, step.signer, step.hash, step.nonce, step.now)).Ok?
  {
    hide MessagesOk, LedgerOk, RecordOk;
    PerformRefused(w.journal, DoReserve(w.phase.q, step.signer, step.hash, step.nonce), step.now);
    ReadableIsBelowCapacity(w.journal);
    hide ValidJournal, Readable;
  }

  lemma ReservationWrites(w: World, step: Step)
    requires Inv(w) && (w.phase.Prepared? || w.phase.SelfChecked?) && OpOf(w.phase, step).Some?
    ensures var (op, now) := OpOf(w.phase, step).value; Apply(w.journal, op, now).Thrown? <==> CannotStore(w, step)
  {
    hide Inv, Reserve, ReserveBroadcaster, ReserveRetry, SameNullifierSet, Readable, Reading;
    if w.phase.SelfChecked? { SelfSignedWrites(w, step); }
    else if w.phase.retry { RetryWrites(w, step.now); }
    else { FirstWrites(w, step.now); }
  }

  lemma AnswerWrites(w: World, response: Response, now: nat)
    requires Inv(w) && w.phase.Sent?
    ensures Perform(w.journal, OpOf(w.phase, Reply(response, now)).value.0, now).Ok?
  {
    hide MessagesOk, LedgerOk;
    var op := OpOf(w.phase, Reply(response, now)).value.0;
    PerformRefused(w.journal, op, now);
    var r := w.journal[Find(w.journal, w.phase.q.id).value];
    assert r in w.journal && RecordOk(w, r) && ValidRecord(r);
    assert InFlight(r, w.phase.q, w.phase.v, w.phase.retry);
    hide JournalOk, PhaseOk;
    assert |r.Codes()| <= MAX_RETRIES;
    if w.phase.retry {
      assert LastReserved(r.Retries(), Some(w.phase.v.quote)) == Some(|r.Retries()| - 1);
    }
  }

  lemma ProgressWrites(w: World, step: Step)
    requires Inv(w) && OpOf(w.phase, step).Some? && !w.phase.Prepared? && !w.phase.SelfChecked? && !w.phase.Sent?
    ensures var (op, now) := OpOf(w.phase, step).value; Perform(w.journal, op, now).Ok?
  {
    hide MessagesOk;
    var (op, now) := OpOf(w.phase, step).value;
    PerformRefused(w.journal, op, now);
    var r := w.journal[Find(w.journal, w.phase.Subject().value).value];
    assert r in w.journal && RecordOk(w, r) && ValidRecord(r);
    if w.phase.Found? && r.hash.Some? {
      assert r.Nullifiers() != [];
      CompletedOnce(w.ledger, w.sent, r.Nullifiers(), r.hash.value, w.phase.hash);
    }
  }

  /** A write of a running command throws exactly in those cases. In particular a first reservation never does, and
      after it nothing but the size of the file can: the schema accepts every answer, every answer finds its
      reservation, and a recovered hash never contradicts a recorded one. */
  lemma WriteFailsIff(steps: seq<Step>, step: Step, terms: Terms)
    requires OpOf(Run(steps, terms).phase, step).Some?
    ensures var w := Run(steps, terms);
            var (op, now) := OpOf(w.phase, step).value;
            Apply(w.journal, op, now).Thrown? <==> CannotStore(w, step)
  {
    RunIsSafe(steps, terms);
    var w := Run(steps, terms);
    hide Run, Inv, Perform, Readable;
    if w.phase.Prepared? || w.phase.SelfChecked? { ReservationWrites(w, step); }
    else if w.phase.Sent? { AnswerWrites(w, step.response, step.now); }
    else { ProgressWrites(w, step); }
  }

  /** Once the file is too large to be read, no step changes the journal again. */
  lemma {:induction false} TooLargeIsForever(steps: seq<Step>, n: nat, terms: Terms)
    requires n <= |steps| && !Readable(Run(steps[..n], terms).journal)
    ensures Run(steps, terms).journal == Run(steps[..n], terms).journal
  {
    hide *;
    if n == |steps| {
      assert steps[..n] == steps;
    } else {
      var last := |steps| - 1;
      assert steps[..last][..n] == steps[..n];
      TooLargeIsForever(steps[..last], n, terms);
      RunLast(steps, terms);
      UnreadableStays(Run(steps[..last], terms), steps[last], terms);
    }
  }

  lemma RunLast(steps: seq<Step>, terms: Terms)
    requires steps != []
    ensures Run(steps, terms) == Next(Run(steps[..|steps| - 1], terms), steps[|steps| - 1], terms)
  {
    hide Next;
  }

  lemma UnreadableStays(w: World, step: Step, terms: Terms)
    requires !Readable(w.journal)
    ensures Next(w, step, terms).journal == w.journal
  {
    hide Next, Readable, Perform, OpOf;
    NextJournal(w, step, terms);
  }

  function OutcomeOf(response: Response): AttemptOutcome {
    match response
    case Refuses(code) => Rejected(code)
    case Unclear(code) => Ambiguous(code)
    case Reports(_) => REPORTED
  }

  /** Each answer that is stored settles the attempt that was reserved, with this Broadcaster and quote, for the last
      message sent, which is the one it answers; and no other attempt. */
  lemma AnswerLandsOnItsAttempt(steps: seq<Step>, response: Response, now: nat, terms: Terms)
    requires Run(steps, terms).phase.Sent? && Readable(Run(steps, terms).journal)
    ensures var w := Run(steps, terms);
            var q, v := w.phase.q, w.phase.v;
            w.sent != [] && w.sent[|w.sent| - 1] == ToBroadcaster(q.id, v.broadcaster, v.feesID, v.nullifiers)
    ensures var w := Run(steps, terms);
            var v := w.phase.v;
            var after := Next(w, Reply(response, now), terms).journal;
            var at := Find(w.journal, w.phase.q.id);
            && at.Some? && |after| == |w.journal| && after == w.journal[at.value := after[at.value]]
            && var r, s := w.journal[at.value], after[at.value];
               && (if w.phase.retry
                   then && |s.Retries()| == |r.Retries()| > 0
                        && var last := |r.Retries()| - 1;
                           && r.Retries()[last].outcome == RESERVED
                           && r.Retries()[last].broadcaster == v.broadcaster && r.Retries()[last].quote == v.quote
                           && s.Retries()[..last] == r.Retries()[..last]
                           && s.Retries()[last] == r.Retries()[last].(updatedAt := now, outcome := OutcomeOf(response))
                   else r.broadcaster == Some(v.broadcaster) && r.Retries() == s.Retries() == [])
               && r.status == SUBMITTING && r.reported.None?
               && s.status == (if response.Refuses? && !w.phase.retry then REJECTED else SUBMITTING)
               && s.reported == (if response.Reports? then Some(response.hash) else None)
               && (s.Codes() == if response.Unclear? then AddCode(r.Codes(), response.ambiguity) else r.Codes())
               && s.hash == None
  {
    RunIsSafe(steps, terms);
    var w := Run(steps, terms);
    LastMessage(w);
    AnswerWrites(w, response, now);
    SentFacts(w);
    var op, next := AnswerOp(w.phase, response, now);
    assert Apply(w.journal, op, now) == Perform(w.journal, op, now) by { hide Perform; }
    AnswerStored(w.journal, w.phase.q, w.phase.v, w.phase.retry, response, now);
    hide Run, Inv, Apply, Perform, Accounted, Readable;
    NextWrites(w, Reply(response, now), op, now, next, terms);
    hide Next;
  }

  lemma LastMessage(w: World)
    requires Inv(w) && w.phase.Sent?
    ensures var q, v := w.phase.q, w.phase.v;
            w.sent != [] && w.sent[|w.sent| - 1] == ToBroadcaster(q.id, v.broadcaster, v.feesID, v.nullifiers)
  {
    hide JournalOk, MessagesOk, LedgerOk, RecordOk;
  }

  /** The canonical hash of a Broadcaster record comes from recovery by nullifiers and from nothing else, and an
      outcome from a selected receipt and nothing else. */
  lemma OnlyRecoverySetsHash(steps: seq<Step>, step: Step, k: nat, terms: Terms)
    requires var w := Run(steps, terms); k < |w.journal| && w.journal[k].mode == BROADCASTER
    ensures var w := Run(steps, terms);
            var after := Next(w, step, terms).journal;
            && k < |after|
            && (after[k].hash != w.journal[k].hash ==>
                  && w.journal[k].hash.None? && after[k].hash.Some?
                  && w.phase == Found(w.journal[k].intentId, after[k].hash.value)
                  && Completed(w.ledger, w.journal[k].Nullifiers(), after[k].hash.value))
            && (after[k].blockNumber != w.journal[k].blockNumber ==>
                 w.phase.Witnessed? && w.phase.intent == w.journal[k].intentId)
  {
    RunIsSafe(steps, terms);
    var w := Run(steps, terms);
    NextJournal(w, step, terms);
    hide Run, Completed, After, Inv, Next, OpOf;
    if OpOf(w.phase, step).Some? { OnlyTouched(w, step, k); }
  }

  /** Which steps mark a record submitted or mined. */
  lemma MarkingSteps(phase: Phase, step: Step)
    requires OpOf(phase, step).Some?
    ensures var op := OpOf(phase, step).value.0;
            && (op.DoMarkSubmitted? ==>
                  || (phase.Found? && op == DoMarkSubmitted(phase.intent, phase.hash))
                  || (phase.SelfSent? && op == DoMarkSubmitted(phase.q.id, phase.hash)))
            && (op.DoMarkMined? ==>
                  (phase.Witnessed? && op.id == phase.intent) || (phase.SelfMarked? && op.id == phase.q.id))
  {
  }

  lemma OnlyTouched(w: World, step: Step, k: nat)
    requires Inv(w) && OpOf(w.phase, step).Some? && k < |w.journal| && w.journal[k].mode == BROADCASTER
    ensures var (op, now) := OpOf(w.phase, step).value;
            var after := After(w.journal, op, now);
            && k < |after|
            && (after[k].hash != w.journal[k].hash ==>
                  && w.journal[k].hash.None? && after[k].hash.Some?
                  && w.phase == Found(w.journal[k].intentId, after[k].hash.value)
                  && Completed(w.ledger, w.journal[k].Nullifiers(), after[k].hash.value))
            && (after[k].blockNumber != w.journal[k].blockNumber ==>
                 w.phase.Witnessed? && w.phase.intent == w.journal[k].intentId)
  {
    hide *;
    var (op, now) := OpOf(w.phase, step).value;
    JournalInOrder(w);
    OnlyMarksSetHash(w.journal, op, now, k);
    MarkingSteps(w.phase, step);
    if (op.DoMarkSubmitted? || op.DoMarkMined?) && Find(w.journal, op.id).Some? { FoundIntent(w.journal, op.id); }
    if w.phase.Found? { FoundFacts(w); }
    if w.phase.SelfSent? { SignedWhenSent(w); }
    if w.phase.SelfMarked? { SubmittedWhenMarked(w); }
  }
}
