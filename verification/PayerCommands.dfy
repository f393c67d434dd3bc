/** The payer's commands as they run: each performs exactly the steps of the protocol, in order, and stops at the
    first guard or write that throws. */
module PayerCommands {
  import opened Results
  import opened JournalModel
  import opened JournalSize
  import opened SubmissionJournalModel
  import opened BroadcasterSelection
  import opened PayerProtocol
  import opened Quorum
  import Rpc = ReceiptQuorum

  // ---- Runs in pieces ---------------------------------------------------------------------------

  lemma RunNothing(w: World, terms: Terms)
    ensures RunFrom(w, [], terms) == w
  {
  }

  lemma RunStep(w: World, steps: seq<Step>, step: Step, terms: Terms)
    ensures RunFrom(w, steps + [step], terms) == Next(RunFrom(w, steps, terms), step, terms)
  {
    hide Next;
    assert (steps + [step])[..|steps|] == steps;
  }

  lemma {:induction false} RunSplit(w: World, a: seq<Step>, b: seq<Step>, terms: Terms)
    ensures RunFrom(w, a + b, terms) == RunFrom(RunFrom(w, a, terms), b, terms)
  {
    hide *;
    if b == [] {
      assert a + b == a;
      RunNothing(RunFrom(w, a, terms), terms);
    } else {
      var rest, last := b[..|b| - 1], b[|b| - 1];
      RunSplit(w, a, rest, terms);
      assert a + b == a + rest + [last] && b == rest + [last];
      RunStep(w, a + rest, last, terms);
      RunStep(RunFrom(w, a, terms), rest, last, terms);
    }
  }

  lemma RunTwo(w: World, a: Step, b: Step, terms: Terms)
    ensures RunFrom(w, [a, b], terms) == Next(Next(w, a, terms), b, terms)
  {
    hide *;
    RunNothing(w, terms);
    RunStep(w, [], a, terms);
    assert [] + [a] == [a];
    RunStep(w, [a], b, terms);
    assert [a] + [b] == [a, b];
  }

  lemma RunThree(w: World, a: Step, b: Step, c: Step, terms: Terms)
    ensures RunFrom(w, [a, b, c], terms) == Next(Next(Next(w, a, terms), b, terms), c, terms)
  {
    hide *;
    RunTwo(w, a, b, terms);
    RunStep(w, [a, b], c, terms);
    assert [a, b] + [c] == [a, b, c];
  }

  lemma RunFour(w: World, a: Step, b: Step, c: Step, d: Step, terms: Terms)
    ensures RunFrom(w, [a, b, c, d], terms) == Next(Next(Next(Next(w, a, terms), b, terms), c, terms), d, terms)
  {
    hide *;
    RunThree(w, a, b, c, terms);
    RunStep(w, [a, b, c], d, terms);
    assert [a, b, c] + [d] == [a, b, c, d];
  }

  lemma NextRecover(w: World, found: Option<Hash>, terms: Terms)
    requires w.phase.Recovering? && (found.Some? ==> Completed(w.ledger, w.phase.nullifiers, found.value))
    ensures Next(w, Recover(found), terms)
            == w.(phase := if found.Some? then Found(w.phase.intent, found.value) else Idle)
  {
    hide Completed;
  }

  lemma NextStoreHash(w: World, now: nat, terms: Terms)
    requires w.phase.Found?
    ensures var r := Reading(w.journal, MarkSubmitted(w.journal, w.phase.intent, w.phase.hash, now));
            Next(w, StoreHash(now), terms)
            == if r.Ok? then w.(journal := r.value, phase := Marked(w.phase.intent, w.phase.hash))
                else w.(phase := Idle)
  {
    hide MarkSubmitted, Readable;
  }

  lemma NextRead(w: World, responses: seq<Option<Receipt>>, terms: Terms)
    requires w.phase.Marked?
    ensures var r := Rpc.SelectReceipt(w.phase.hash, responses);
            Next(w, ReadReceipt(responses), terms)
            == w.(observed := w.observed + [Read(w.phase.hash, responses)],
                  phase := if r.Some? then Witnessed(w.phase.intent, w.phase.hash, r.value) else Idle)
  {
    hide Rpc.SelectReceipt;
  }

  lemma NextStoreReceipt(w: World, now: nat, terms: Terms)
    requires w.phase.Witnessed?
    ensures var p := w.phase;
            var r := Reading(w.journal, MarkMined(w.journal, p.intent, p.receipt.blockNumber, p.receipt.succeeded,
                now));
            Next(w, StoreReceipt(now), terms)
            == if r.Ok? then w.(journal := r.value, phase := Idle) else w.(phase := Idle)
  {
    hide MarkMined, Readable;
  }

  lemma NextBegin(w: World, q: Request, payer: RailgunAddress, retry: bool, terms: Terms)
    requires w.phase.Idle?
    ensures Next(w, BeginStep(q, payer, retry), terms)
         == w.(phase :=
                 if !Readable(w.journal) then Idle
                 else if retry then
                   match Retryable(w.journal, q, payer)
                   case Ok(r) => Checked(q, payer, true, Tried(r))
                   case Thrown(_) => Idle
                 else if Find(w.journal, q.id).None? then Checked(q, payer, false, {}) else Idle)
  {
    hide Retryable, Tried, Readable;
  }

  predicate Recoverable(j: Journal, id: IntentId, payer: RailgunAddress) {
    var at := Find(j, id);
    at.Some? && j[at.value].mode == BROADCASTER && j[at.value].payer == Some(payer)
    && j[at.value].status in {SUBMITTING, SUBMITTED}
  }

  lemma NextBeginRecovery(w: World, id: IntentId, payer: RailgunAddress, terms: Terms)
    requires w.phase.Idle?
    ensures Next(w, BeginRecovery(id, payer), terms)
         == if Readable(w.journal) && Recoverable(w.journal, id, payer)
            then w.(phase := Recovering(id, w.journal[Find(w.journal, id).value].Nullifiers()))
            else w
    ensures RunFrom(w, [BeginRecovery(id, payer)], terms) == Next(w, BeginRecovery(id, payer), terms)
  {
    hide Readable;
    assert RunFrom(w, [BeginRecovery(id, payer)][..0], terms) == w;
  }

  lemma NextPrepare(w: World, p: Preparation, terms: Terms)
    requires w.phase.Checked?
    ensures var plan := Plan(w.journal, w.phase.q.id, w.phase.payer, w.phase.tried, p, terms);
            Next(w, Prepare(p), terms)
            == w.(phase := if plan.Some? then Prepared(w.phase.q, plan.value, w.phase.retry) else Idle)
  {
    hide Plan;
  }

  function Reserving(j: Journal, q: Request, v: Reservation, retry: bool, now: nat): Result<Journal, JournalError> {
    Reading(j, if retry then ReserveRetry(j, q, v, now) else ReserveBroadcaster(j, q, v, now))
  }

  lemma NextStoreReservation(w: World, now: nat, terms: Terms)
    requires w.phase.Prepared?
    ensures var r := Reserving(w.journal, w.phase.q, w.phase.v, w.phase.retry, now);
            Next(w, StoreReservation(now), terms)
            == if r.Ok? then w.(journal := r.value, phase := Stored(w.phase.q, w.phase.v, w.phase.retry))
               else w.(phase := Idle)
  {
    hide ReserveRetry, ReserveBroadcaster, Readable;
  }

  function Answering(
    j: Journal, q: Request, v: Reservation, retry: bool, response: Response, now: nat): Result<Journal, JournalError> {
    Reading(j,
      match response
      case Refuses(code) =>
        if retry then MarkRetryRejected(j, q.id, v.quote, code, now) else MarkRejected(j, q.id, code, now)
      case Unclear(code) => MarkAmbiguous(j, q.id, code, if retry then Some(v.quote) else None, now)
      case Reports(hash) => MarkReported(j, q.id, hash, now))
  }

  lemma NextSendAndReply(w: World, response: Response, now: nat, terms: Terms)
    requires w.phase.Stored?
    ensures var q, v, retry := w.phase.q, w.phase.v, w.phase.retry;
            var r := Answering(w.journal, q, v, retry, response, now);
            Next(Next(w, Send, terms), Reply(response, now), terms)
            == w.(journal := if r.Ok? then r.value else w.journal,
                  sent := w.sent + [ToBroadcaster(q.id, v.broadcaster, v.feesID, v.nullifiers)],
                  phase := if r.Ok? && response.Reports? then Recovering(q.id, v.nullifiers) else Idle)
  {
    hide MarkRetryRejected, MarkRejected, MarkAmbiguous, MarkReported, Readable;
  }

  predicate Begins(step: Step) { step.BeginSend? || step.BeginRetry? || step.BeginRecovery? || step.BeginSelfSigned? }

  lemma IdleStep(w: World, step: Step, terms: Terms)
    requires w.phase.Idle? && !Begins(step)
    ensures Next(w, step, terms) == w.(ledger := Next(w, step, terms).ledger)
    ensures !step.Mine? ==> Next(w, step, terms) == w
  {
    assert OpOf(Idle, step) == None;
  }

  lemma NothingBegins(o: Outside)
    ensures forall s <- Exchange(o) :: !Begins(s) && !s.Mine?
    ensures forall s <- Resolution(o) :: !Begins(s) && !s.Mine?
  {
  }

  lemma MineStep(w: World, step: Step, terms: Terms)
    requires step.Mine?
    ensures Next(w, step, terms) == w.(ledger := Next(w, step, terms).ledger)
  {
    hide Minable;
    assert OpOf(w.phase, step) == None;
  }

  /** Without a command, the remaining steps of one change nothing. */
  lemma {:induction false} IdleSkips(w: World, steps: seq<Step>, terms: Terms)
    requires w.phase.Idle? && forall s <- steps :: !Begins(s)
    ensures RunFrom(w, steps, terms) == w.(ledger := RunFrom(w, steps, terms).ledger)
    ensures (forall s <- steps :: !s.Mine?) ==> RunFrom(w, steps, terms) == w
  {
    hide Next;
    if steps != [] {
      var last := |steps| - 1;
      IdleSkips(w, steps[..last], terms);
      IdleStep(RunFrom(w, steps[..last], terms), steps[last], terms);
    }
  }

  lemma {:induction false} MiningSkips(w: World, steps: seq<Step>, terms: Terms)
    requires forall s <- steps :: s.Mine?
    ensures RunFrom(w, steps, terms) == w.(ledger := RunFrom(w, steps, terms).ledger)
  {
    hide Next;
    if steps != [] {
      var last := |steps| - 1;
      MiningSkips(w, steps[..last], terms);
      MineStep(RunFrom(w, steps[..last], terms), steps[last], terms);
    }
  }

  // ---- Commands ---------------------------------------------------------------------------------

  /** What the outside contributes to one command after its reservation. */
  datatype Outside = Outside(
    storedAt: nat, response: Response, answeredAt: nat, found: Option<Hash>, hashAt: nat,
    responses: seq<Option<Receipt>>, receiptAt: nat)

  function BeginStep(q: Request, payer: RailgunAddress, retry: bool): Step {
    if retry then BeginRetry(q, payer) else BeginSend(q, payer)
  }

  function Opening(q: Request, payer: RailgunAddress, retry: bool, p: Preparation, o: Outside): seq<Step> {
    [BeginStep(q, payer, retry), Prepare(p), StoreReservation(o.storedAt)]
  }

  function Exchange(o: Outside): seq<Step> { [Send, Reply(o.response, o.answeredAt)] }

  function Resolution(o: Outside): seq<Step> {
    [Recover(o.found), StoreHash(o.hashAt), ReadReceipt(o.responses), StoreReceipt(o.receiptAt)]
  }

  /** All steps of a transfer; `mined` is what the chain did before the wallet looked for the nullifiers. */
  function TransferSteps(
    q: Request, payer: RailgunAddress, retry: bool, p: Preparation, o: Outside, mined: seq<Step>): seq<Step> {
    Opening(q, payer, retry, p, o) + Exchange(o) + mined + Resolution(o)
  }

  /** What the outside contributes to a self-signed transfer: the signed transaction, whether the provider took it,
      and the receipt it waited for. */
  datatype SelfSignedOutside = SelfSignedOutside(
    signer: EvmAddress, hash: Hash, nonce: nat, storedAt: nat, accepted: bool, hashAt: nat,
    receipt: Option<(nat, bool)>, receiptAt: nat)

  function SelfSignedSteps(q: Request, o: SelfSignedOutside): seq<Step> {
    [BeginSelfSigned(q), StoreSelfSigned(o.signer, o.hash, o.nonce, o.storedAt)]
    + [SendSelfSigned, if o.accepted then StoreSelfSignedHash(o.hashAt) else Crash,
       if o.receipt.Some? then StoreSelfSignedReceipt(o.receipt.value.0, o.receipt.value.1, o.receiptAt) else Crash]
  }

  function Kept(j: Journal, r: Result<Journal, JournalError>): Journal { if r.Ok? then r.value else j }

  /** The steps of a self-signed transfer, written out. */
  ghost function AfterSelfSigned(w: World, q: Request, o: SelfSignedOutside): World {
    var reserved := Reading(w.journal, Reserve(w.journal, q, o.signer, o.hash, o.nonce, o.storedAt));
    if reserved.Thrown? then w
    else
      var sent := w.(journal := reserved.value, sent := w.sent + [SelfSigned(q.id, o.hash)]);
      var marked := Reading(sent.journal, MarkSubmitted(sent.journal, q.id, o.hash, o.hashAt));
      if !o.accepted || marked.Thrown? then sent
      else if o.receipt.None? then sent.(journal := marked.value)
      else sent.(journal :=
        Kept(marked.value, Reading(marked.value,
          MarkMined(marked.value, q.id, o.receipt.value.0, o.receipt.value.1, o.receiptAt))))
  }

  lemma NextStoreSelfSignedHash(w: World, now: nat, terms: Terms)
    requires w.phase.SelfSent?
    ensures var r := Reading(w.journal, MarkSubmitted(w.journal, w.phase.q.id, w.phase.hash, now));
            Next(w, StoreSelfSignedHash(now), terms)
            == if r.Ok? then w.(journal := r.value, phase := SelfMarked(w.phase.q, w.phase.hash)) else w.(phase := Idle)
  {
    hide MarkSubmitted, Readable;
  }

  lemma NextStoreSelfSignedReceipt(w: World, block: nat, succeeded: bool, now: nat, terms: Terms)
    requires w.phase.SelfMarked?
    ensures var r := Reading(w.journal, MarkMined(w.journal, w.phase.q.id, block, succeeded, now));
            Next(w, StoreSelfSignedReceipt(block, succeeded, now), terms)
            == w.(journal := Kept(w.journal, r), phase := Idle)
  {
    hide MarkMined, Readable;
  }

  lemma NextCrash(w: World, terms: Terms)
    ensures Next(w, Crash, terms) == w.(phase := Idle)
  {
    hide Readable;
  }

  lemma SelfSignedTail(w: World, q: Request, o: SelfSignedOutside, terms: Terms)
    requires w.phase == SelfSent(q, o.hash)
    ensures var steps := SelfSignedSteps(q, o);
            var marked := Reading(w.journal, MarkSubmitted(w.journal, q.id, o.hash, o.hashAt));
            Next(Next(w, steps[3], terms), steps[4], terms).(phase := Idle)
            == if !o.accepted || marked.Thrown? then w.(phase := Idle)
               else if o.receipt.None? then w.(journal := marked.value, phase := Idle)
               else w.(journal := Kept(marked.value, Reading(marked.value,
                                  MarkMined(marked.value, q.id, o.receipt.value.0, o.receipt.value.1, o.receiptAt))),
                       phase := Idle)
    ensures var steps := SelfSignedSteps(q, o); Next(Next(w, steps[3], terms), steps[4], terms).phase.Idle?
  {
    var steps := SelfSignedSteps(q, o);
    hide Next, Reading, MarkSubmitted, MarkMined, Kept;
    var next := Next(w, steps[3], terms);
    NextCrash(w, terms);
    NextCrash(next, terms);
    NextStoreSelfSignedHash(w, o.hashAt, terms);
    if next.phase.Idle? { IdleStep(next, steps[4], terms); }
    else if o.receipt.Some? {
      NextStoreSelfSignedReceipt(next, o.receipt.value.0, o.receipt.value.1, o.receiptAt, terms);
    }
  }

  lemma NextBeginSelfSigned(w: World, q: Request, terms: Terms)
    requires w.phase.Idle?
    ensures Next(w, BeginSelfSigned(q), terms)
         == if Readable(w.journal) && Find(w.journal, q.id).None? then w.(phase := SelfChecked(q)) else w
  {
    hide Readable, Find;
  }

  lemma NextStoreSelfSigned(w: World, signer: EvmAddress, hash: Hash, nonce: nat, now: nat, terms: Terms)
    requires w.phase.SelfChecked?
    ensures var r := Reading(w.journal, Reserve(w.journal, w.phase.q, signer, hash, nonce, now));
            Next(w, StoreSelfSigned(signer, hash, nonce, now), terms)
            == if r.Ok? then w.(journal := r.value, phase := SelfStored(w.phase.q, hash)) else w.(phase := Idle)
  {
    hide Reserve, Readable;
  }

  lemma NextSendSelfSigned(w: World, terms: Terms)
    requires w.phase.SelfStored?
    ensures var q, hash := w.phase.q, w.phase.hash;
            Next(w, SendSelfSigned, terms) == w.(sent := w.sent + [SelfSigned(q.id, hash)], phase := SelfSent(q, hash))
  {
  }

  lemma ReserveNeedsNew(j: Journal, q: Request, signer: EvmAddress, hash: Hash, nonce: nat, now: nat)
    ensures !Readable(j) || Find(j, q.id).Some? ==> Reading(j, Reserve(j, q, signer, hash, nonce, now)).Thrown?
  {
    hide Readable, Find;
  }

  lemma SelfSignedHead(w: World, q: Request, o: SelfSignedOutside, terms: Terms)
    requires w.phase.Idle?
    ensures var reserved := Reading(w.journal, Reserve(w.journal, q, o.signer, o.hash, o.nonce, o.storedAt));
            var steps := SelfSignedSteps(q, o);
            Next(Next(Next(w, steps[0], terms), steps[1], terms), steps[2], terms)
            == if reserved.Thrown? then w
               else w.(journal := reserved.value, sent := w.sent + [SelfSigned(q.id, o.hash)],
                       phase := SelfSent(q, o.hash))
  {
    hide Next, Reading, Reserve, Readable, Find;
    var begin, store := BeginSelfSigned(q), StoreSelfSigned(o.signer, o.hash, o.nonce, o.storedAt);
    NextBeginSelfSigned(w, q, terms);
    ReserveNeedsNew(w.journal, q, o.signer, o.hash, o.nonce, o.storedAt);
    var checked := Next(w, begin, terms);
    if checked.phase.Idle? {
      IdleStep(w, store, terms);
      IdleStep(w, SendSelfSigned, terms);
    } else {
      NextStoreSelfSigned(checked, o.signer, o.hash, o.nonce, o.storedAt, terms);
      var stored := Next(checked, store, terms);
      if stored.phase.Idle? { IdleStep(stored, SendSelfSigned, terms); } else { NextSendSelfSigned(stored, terms); }
    }
  }

  lemma SelfSignedRun(w: World, q: Request, o: SelfSignedOutside, terms: Terms)
    requires w.phase.Idle?
    ensures RunFrom(w, SelfSignedSteps(q, o), terms) == AfterSelfSigned(w, q, o)
  {
    hide Next, RunFrom, Reserve, MarkSubmitted, MarkMined, Readable;
    var steps := SelfSignedSteps(q, o);
    var stored := Next(Next(w, steps[0], terms), steps[1], terms);
    assert steps == [steps[0], steps[1]] + [steps[2], steps[3], steps[4]];
    RunSplit(w, [steps[0], steps[1]], [steps[2], steps[3], steps[4]], terms);
    RunTwo(w, steps[0], steps[1], terms);
    RunThree(stored, steps[2], steps[3], steps[4], terms);
    SelfSignedHead(w, q, o, terms);
    var sent := Next(stored, steps[2], terms);
    if sent.phase.SelfSent? {
      SelfSignedTail(sent, q, o, terms);
    } else {
      IdleStep(sent, steps[3], terms);
      IdleStep(sent, steps[4], terms);
    }
  }

  lemma SkipPreparation(w: World, p: Preparation, o: Outside, terms: Terms)
    requires w.phase.Idle?
    ensures Next(w, Prepare(p), terms) == w && Next(w, StoreReservation(o.storedAt), terms) == w
  {
    IdleStep(w, Prepare(p), terms);
    IdleStep(w, StoreReservation(o.storedAt), terms);
  }

  lemma SkipThree(w: World, o: Outside, terms: Terms)
    requires w.phase.Idle?
    ensures Next(w, StoreHash(o.hashAt), terms) == w
    ensures Next(w, ReadReceipt(o.responses), terms) == w
    ensures Next(w, StoreReceipt(o.receiptAt), terms) == w
  {
    IdleStep(w, StoreHash(o.hashAt), terms);
    IdleStep(w, ReadReceipt(o.responses), terms);
    IdleStep(w, StoreReceipt(o.receiptAt), terms);
  }

  /** What a dry run leaves open: whether the submission still finds the quote's terms. */
  lemma PlanCompletesDraft(
    j: Journal, id: IntentId, payer: RailgunAddress, tried: set<RailgunAddress>, p: Preparation, terms: Terms)
    ensures var draft, plan := Draft(j, id, tried, p, terms), Plan(j, id, payer, tried, p, terms);
            if draft.None? then plan.None?
            else
              var quote := SelectSubmission(p.submitted, draft.value, terms, p.submittedAt);
              plan == if quote.None? then None
                      else
                        Some(Reservation(payer, quote.value.broadcaster, quote.value.Fingerprint(), quote.value.feesID,
                                         p.fee, p.nullifiers))
  {
    hide Discover, SelectSubmission, Populated, Conflicts, Readable;
  }

  class Payer {
    const journal: SubmissionJournal
    var sent: seq<Message>
    var observed: seq<Read>

    constructor ()
      ensures fresh(journal) && journal.records == [] && sent == [] && observed == []
    {
      journal := new SubmissionJournal();
      sent, observed := [], [];
    }

    ghost function At(phase: Phase, ledger: seq<ChainTx>): World
      reads this, journal
    {
      World(journal.records, phase, sent, ledger, observed)
    }

    /** Guards, quote selection and the reservation. */
    method PrepareReservation(
      q: Request, payer: RailgunAddress, retry: bool, p: Preparation, o: Outside, terms: Terms,
      ghost ledger: seq<ChainTx>)
      returns (v: Option<Reservation>)
      modifies journal
      ensures At(if v.Some? then Stored(q, v.value, retry) else Idle, ledger)
              == RunFrom(old(At(Idle, ledger)), Opening(q, payer, retry, p, o), terms)
      ensures v.Some? ==> v.value.nullifiers == p.nullifiers
    {
      hide Next, Retryable, Tried, Plan, ReserveRetry, ReserveBroadcaster, Readable;
      ghost var w := At(Idle, ledger);
      RunThree(w, BeginStep(q, payer, retry), Prepare(p), StoreReservation(o.storedAt), terms);
      NextBegin(w, q, payer, retry, terms);
      SkipPreparation(w, p, o, terms);
      if !Readable(journal.records) { return None; }
      var tried := {};
      if retry {
        var r := Retryable(journal.records, q, payer);
        if r.Thrown? { return None; }
        tried := Tried(r.value);
      } else if Find(journal.records, q.id).Some? {
        return None;
      }
      ghost var checked := w.(phase := Checked(q, payer, retry, tried));
      assert Next(w, BeginStep(q, payer, retry), terms) == checked;
      NextPrepare(checked, p, terms);
      v := PrepareTransfer(q.id, payer, tried, p, terms);
      if v.None? { return; }
      NextStoreReservation(w.(phase := Prepared(q, v.value, retry)), o.storedAt, terms);
      var failure;
      if retry {
        failure := journal.ReserveForRetry(q, v.value, o.storedAt);
      } else {
        failure := journal.ReserveForBroadcaster(q, v.value, o.storedAt);
      }
      if failure.Some? { v := None; }
    }

    /** From discovery to the quote that is current after the proof. */
    method DraftTransfer(id: IntentId, tried: set<RailgunAddress>, p: Preparation, terms: Terms)
      returns (current: Option<PricedQuote>)
      ensures current == Draft(journal.records, id, tried, p, terms)
    {
      var discovery := SelectDiscoverable(p.offered, tried, terms, p.offeredAt);
      if discovery.selected.None? { return None; }
      if p.fee == 0 || p.fee > p.limit { return None; }
      if !Populated(p.nullifiers) { return None; }
      if !Readable(journal.records) || Conflicts(journal.records, id, p.nullifiers) { return None; }
      current := SelectSubmissionBroadcaster(p.current, discovery.selected.value, terms, p.currentAt);
    }

    /** From discovery to the prepared submission. */
    method PrepareTransfer(
      id: IntentId, payer: RailgunAddress, tried: set<RailgunAddress>, p: Preparation, terms: Terms)
      returns (v: Option<Reservation>)
      ensures v == Plan(journal.records, id, payer, tried, p, terms)
      ensures v.Some? ==> v.value.nullifiers == p.nullifiers
    {
      hide Draft, Plan;
      PlanCompletesDraft(journal.records, id, payer, tried, p, terms);
      var current := DraftTransfer(id, tried, p, terms);
      if current.None? { return None; }
      var quote := SelectSubmissionBroadcaster(p.submitted, current.value, terms, p.submittedAt);
      if quote.None? { return None; }
      return Some(Reservation(
        payer, quote.value.broadcaster, quote.value.Fingerprint(), quote.value.feesID, p.fee, p.nullifiers));
    }

    /** The command without `submit`: the guard and the preparation, up to the quote it reports. */
    method DryRun(q: Request, retry: bool, p: Preparation, terms: Terms) returns (draft: Option<PricedQuote>)
      ensures draft == if retry || !Readable(journal.records) || Find(journal.records, q.id).Some? then None
                       else Draft(journal.records, q.id, {}, p, terms)
    {
      hide Readable, Find, Draft;
      if retry || !Readable(journal.records) || Find(journal.records, q.id).Some? { return None; }
      draft := DraftTransfer(q.id, {}, p, terms);
    }

    /** Sends the message and records the answer; `ok` if a hash was reported and recorded. */
    method SubmitPrepared(q: Request, v: Reservation, retry: bool, o: Outside, terms: Terms, ghost ledger: seq<ChainTx>)
      returns (ok: bool)
      modifies this, journal
      ensures At(if ok then Recovering(q.id, v.nullifiers) else Idle, ledger)
              == RunFrom(old(At(Stored(q, v, retry), ledger)), Exchange(o), terms)
    {
      hide Next, RunFrom, MarkRetryRejected, MarkRejected, MarkAmbiguous, MarkReported, Readable;
      RunTwo(At(Stored(q, v, retry), ledger), Send, Reply(o.response, o.answeredAt), terms);
      NextSendAndReply(At(Stored(q, v, retry), ledger), o.response, o.answeredAt, terms);
      sent := sent + [ToBroadcaster(q.id, v.broadcaster, v.feesID, v.nullifiers)];
      var failure;
      match o.response {
        case Refuses(code) =>
          if retry {
            failure := journal.RecordRetryRejection(q.id, v.quote, code, o.answeredAt);
          } else {
            failure := journal.RecordRejection(q.id, code, o.answeredAt);
          }
          ok := false;
        case Unclear(code) =>
          failure := journal.RecordAmbiguity(q.id, code, if retry then Some(v.quote) else None, o.answeredAt);
          ok := false;
        case Reports(hash) =>
          failure := journal.RecordReport(q.id, hash, o.answeredAt);
          ok := failure.None?;
      }
    }

    /** Finds the canonical hash by the nullifiers and records it and its receipt. */
    method Resolve(id: IntentId, nullifiers: seq<Nullifier>, o: Outside, terms: Terms, ghost ledger: seq<ChainTx>)
      modifies this, journal
      requires o.found.Some? ==> Completed(ledger, nullifiers, o.found.value)
      ensures At(Idle, ledger) == RunFrom(old(At(Recovering(id, nullifiers), ledger)), Resolution(o), terms)
    {
      hide Next, RunFrom, Completed, MarkSubmitted, MarkMined, Rpc.SelectReceipt, Readable;
      ghost var w := At(Recovering(id, nullifiers), ledger);
      ghost var recovered := Next(w, Recover(o.found), terms);
      ghost var marked := Next(recovered, StoreHash(o.hashAt), terms);
      ghost var read := Next(marked, ReadReceipt(o.responses), terms);
      RunFour(w, Recover(o.found), StoreHash(o.hashAt), ReadReceipt(o.responses), StoreReceipt(o.receiptAt), terms);
      NextRecover(w, o.found, terms);
      if o.found.None? { SkipThree(recovered, o, terms); return; }
      var hash := o.found.value;
      NextStoreHash(recovered, o.hashAt, terms);
      var failure := journal.RecordSubmission(id, hash, o.hashAt);
      if failure.Some? { SkipThree(marked, o, terms); return; }
      NextRead(marked, o.responses, terms);
      observed := observed + [Read(hash, o.responses)];
      var receipt := Rpc.SelectReceiptQuorum(hash, o.responses);
      if receipt.None? { SkipThree(read, o, terms); return; }
      NextStoreReceipt(read, o.receiptAt, terms);
      failure := journal.RecordReceipt(id, receipt.value.blockNumber, receipt.value.succeeded, o.receiptAt);
    }

    /** `sendBroadcasterTransfer`: a run of the protocol's steps. Without `submit` the command stops before the
        reservation and reports the quote that is current after the proof; an ambiguous retry is for submissions only.
        The wallet answers from the chain as it is when it is asked. */
    method SendBroadcasterTransfer(
      q: Request, payer: RailgunAddress, retry: bool, submit: bool, p: Preparation, o: Outside, terms: Terms,
      ghost ledger: seq<ChainTx>, ghost mined: seq<Step>)
      returns (draft: Option<PricedQuote>)
      modifies this, journal
      requires forall s <- mined :: s.Mine?
      requires o.found.Some? ==>
                 Completed(
                   RunFrom(At(Idle, ledger), Opening(q, payer, retry, p, o) + Exchange(o) + mined, terms).ledger,
                   p.nullifiers, o.found.value)
      ensures !submit ==>
                && journal.records == old(journal.records) && sent == old(sent) && observed == old(observed)
                && draft == if retry || !Readable(journal.records) || Find(journal.records, q.id).Some? then None
                            else Draft(journal.records, q.id, {}, p, terms)
      ensures submit ==>
                var end := RunFrom(old(At(Idle, ledger)), TransferSteps(q, payer, retry, p, o, mined), terms);
                At(Idle, end.ledger) == end
    {
      hide Draft, Find;
      draft := None;
      if !submit {
        draft := DryRun(q, retry, p, terms);
        return;
      }
      ghost var w := At(Idle, ledger);
      ghost var opening, exchange, resolution := Opening(q, payer, retry, p, o), Exchange(o), Resolution(o);
      hide Next, RunFrom, Completed, Opening, Exchange, Resolution, Begins, Readable;
      NothingBegins(o);
      RunSplit(w, opening + exchange + mined, resolution, terms);
      RunSplit(w, opening + exchange, mined, terms);
      RunSplit(w, opening, exchange, terms);
      var v := PrepareReservation(q, payer, retry, p, o, terms, ledger);
      if v.None? {
        IdleSkips(At(Idle, ledger), exchange, terms);
        ghost var skipped := RunFrom(At(Idle, ledger), exchange, terms);
        IdleSkips(skipped, mined, terms);
        IdleSkips(RunFrom(skipped, mined, terms), resolution, terms);
        return;
      }
      var ok := SubmitPrepared(q, v.value, retry, o, terms, ledger);
      ghost var answered := At(if ok then Recovering(q.id, v.value.nullifiers) else Idle, ledger);
      MiningSkips(answered, mined, terms);
      ghost var chain := RunFrom(answered, mined, terms).ledger;
      if ok {
        Resolve(q.id, v.value.nullifiers, o, terms, chain);
        assert RunFrom(w, TransferSteps(q, payer, retry, p, o, mined), terms).ledger == chain;
      } else {
        IdleSkips(RunFrom(answered, mined, terms), resolution, terms);
      }
    }

    /** `recoverBroadcaster` */
    method RecoverBroadcaster(id: IntentId, payer: RailgunAddress, o: Outside, terms: Terms, ghost ledger: seq<ChainTx>)
      modifies this, journal
      requires o.found.Some? && Find(journal.records, id).Some? ==>
                 Completed(ledger, journal.records[Find(journal.records, id).value].Nullifiers(), o.found.value)
      ensures At(Idle, ledger) == RunFrom(old(At(Idle, ledger)), [BeginRecovery(id, payer)] + Resolution(o), terms)
    {
      hide Next, RunFrom, Completed, Readable;
      ghost var w := At(Idle, ledger);
      RunSplit(w, [BeginRecovery(id, payer)], Resolution(o), terms);
      NextBeginRecovery(w, id, payer, terms);
      NothingBegins(o);
      IdleSkips(w, Resolution(o), terms);
      if !Readable(journal.records) { return; }
      var at := Find(journal.records, id);
      if at.None? || journal.records[at.value].mode != BROADCASTER
         || journal.records[at.value].payer != Some(payer)
      {
        return;
      }
      var r := journal.records[at.value];
      if r.status == REJECTED || r.status == MINED || r.status == REVERTED { return; }
      Resolve(id, r.Nullifiers(), o, terms, ledger);
    }

    /** `sendSelfSignedTransfer`: the hash is on disk before the transaction leaves. */
    method SendSelfSignedTransfer(q: Request, o: SelfSignedOutside, terms: Terms, ghost ledger: seq<ChainTx>)
      modifies this, journal
      ensures At(Idle, ledger) == RunFrom(old(At(Idle, ledger)), SelfSignedSteps(q, o), terms)
    {
      hide Next, RunFrom, Reserve, MarkSubmitted, MarkMined, Readable, Find, SelfSignedSteps;
      SelfSignedRun(At(Idle, ledger), q, o, terms);
      ReserveNeedsNew(journal.records, q, o.signer, o.hash, o.nonce, o.storedAt);
      if !Readable(journal.records) || Find(journal.records, q.id).Some? { return; }
      var failure := journal.ReserveSelfSigned(q, o.signer, o.hash, o.nonce, o.storedAt);
      if failure.Some? { return; }
      sent := sent + [SelfSigned(q.id, o.hash)];
      if !o.accepted { return; }
      failure := journal.RecordSubmission(q.id, o.hash, o.hashAt);
      if failure.Some? || o.receipt.None? { return; }
      failure := journal.RecordReceipt(q.id, o.receipt.value.0, o.receipt.value.1, o.receiptAt);
    }
  }
}
