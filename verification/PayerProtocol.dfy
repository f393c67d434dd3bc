/** The payer's submission commands as steps over the durable journal, the messages that left the payer and the
    chain: tools/ppops-payer/src/railgun/broadcaster-transfer.ts, self-signed-transfer.ts and `recoverBroadcaster`
    of tools/ppops-payer/src/cli.ts. The runtime lock admits one command at a time; a crash, or any exception that
    is not handled, forgets the command and nothing else. */
module PayerProtocol {
  import opened Results
  import opened JournalModel
  import opened JournalSize
  import opened JournalFacts
  import opened BroadcasterSelection
  import opened Quorum
  import Rpc = ReceiptQuorum

  datatype Message =
    | ToBroadcaster(intent: IntentId, broadcaster: RailgunAddress, feesID: nat, nullifiers: seq<Nullifier>)
    | SelfSigned(intent: IntentId, hash: Hash)

  /** `origin` is the message whose payload the transaction carries, if it is one of this payer's. */
  datatype ChainTx = ChainTx(hash: Hash, nullifiers: seq<Nullifier>, succeeded: bool, origin: Option<nat>)

  /** One round of receipt requests, with the answers. */
  datatype Read = Read(hash: Hash, responses: seq<Option<Receipt>>)

  /** How far the running command has come. */
  datatype Phase =
    | Idle
    | Checked(q: Request, payer: RailgunAddress, retry: bool, tried: set<RailgunAddress>)
    | Prepared(q: Request, v: Reservation, retry: bool)
    | Stored(q: Request, v: Reservation, retry: bool)
    | Sent(q: Request, v: Reservation, retry: bool)
    | Recovering(intent: IntentId, nullifiers: seq<Nullifier>)
    | Found(intent: IntentId, hash: Hash)
    | Marked(intent: IntentId, hash: Hash)
    | Witnessed(intent: IntentId, hash: Hash, receipt: Rpc.Identity)
    | SelfChecked(q: Request)
    | SelfStored(q: Request, hash: Hash)
    | SelfSent(q: Request, hash: Hash)
    | SelfMarked(q: Request, hash: Hash)
  {
    function Subject(): Option<IntentId> {
      if Idle? then None
      else if Recovering? || Found? || Marked? || Witnessed? then Some(intent)
      else Some(q.id)
    }
  }

  datatype World = World(journal: Journal, phase: Phase, sent: seq<Message>, ledger: seq<ChainTx>, observed: seq<Read>)

  /** What the environment supplies while a transfer is prepared: quotes at three moments, the fee and the limit the
      user set, and the nullifiers of the populated transaction. */
  datatype Preparation = Preparation(
    offered: seq<Candidate>, offeredAt: int, current: seq<Candidate>, currentAt: int,
    submitted: seq<Candidate>, submittedAt: int, fee: nat, limit: nat, nullifiers: seq<Nullifier>)

  datatype Response = Refuses(rejection: RejectionCode) | Unclear(ambiguity: AmbiguityCode) | Reports(hash: Hash)

  datatype Step =
    | BeginSend(q: Request, payer: RailgunAddress)
    | BeginRetry(q: Request, payer: RailgunAddress)
    | BeginRecovery(intent: IntentId, payer: RailgunAddress)
    | BeginSelfSigned(q: Request)
    | Prepare(p: Preparation)
    | StoreReservation(now: nat)
    | Send
    | Reply(response: Response, now: nat)
    | Recover(found: Option<Hash>)
    | StoreHash(now: nat)
    | ReadReceipt(responses: seq<Option<Receipt>>)
    | StoreReceipt(now: nat)
    | StoreSelfSigned(signer: EvmAddress, hash: Hash, nonce: nat, now: nat)
    | SendSelfSigned
    | StoreSelfSignedHash(now: nat)
    | StoreSelfSignedReceipt(blockNumber: nat, succeeded: bool, now: nat)
    | Crash
    | Mine(tx: ChainTx)

  /** `assertPopulatedNullifiers` */
  predicate Populated(ns: seq<Nullifier>) { 1 <= |ns| <= MAX_NULLIFIERS && UniqueNonzero(ns) }

  /** `attemptedBroadcasterAddresses` */
  function Tried(r: Record): set<RailgunAddress> {
    (if r.broadcaster.Some? then {r.broadcaster.value} else {}) + (set a <- r.Retries() :: a.broadcaster)
  }

  /** The quote chosen at discovery, the one current after the proof, and the one the message is made for. */
  function Quotes(
    tried: set<RailgunAddress>, p: Preparation, terms: Terms): Option<(PricedQuote, PricedQuote, PricedQuote)> {
    var first := Discover(p.offered, tried, terms, p.offeredAt);
    if first.None? then None
    else
      var second := SelectSubmission(p.current, first.value, terms, p.currentAt);
      if second.None? then None
      else
        var third := SelectSubmission(p.submitted, second.value, terms, p.submittedAt);
        if third.None? then None else Some((first.value, second.value, third.value))
  }

  /** Everything up to the quote that is current after the proof; None if a guard throws. */
  function Draft(
    j: Journal, id: IntentId, tried: set<RailgunAddress>, p: Preparation, terms: Terms): Option<PricedQuote> {
    var first := Discover(p.offered, tried, terms, p.offeredAt);
    if first.None? || p.fee == 0 || p.fee > p.limit || !Populated(p.nullifiers) then None
    else if !Readable(j) || Conflicts(j, id, p.nullifiers) then None
    else SelectSubmission(p.current, first.value, terms, p.currentAt)
  }

  /** Everything up to the reservation; None if a guard throws. */
  function Plan(
    j: Journal, id: IntentId, payer: RailgunAddress, tried: set<RailgunAddress>, p: Preparation, terms: Terms):
    Option<Reservation>
  {
    var quotes := Quotes(tried, p, terms);
    if quotes.None? || p.fee == 0 || p.fee > p.limit || !Populated(p.nullifiers) then None
    else if !Readable(j) || Conflicts(j, id, p.nullifiers) then None
    else
      var quote := quotes.value.2;
      Some(Reservation(payer, quote.broadcaster, quote.Fingerprint(), quote.feesID, p.fee, p.nullifiers))
  }

  /** The wallet's answer to which transaction spent all of these. */
  predicate Completed(ledger: seq<ChainTx>, ns: seq<Nullifier>, hash: Hash) {
    exists tx <- ledger :: tx.succeeded && tx.hash == hash && forall n <- ns :: n in tx.nullifiers
  }

  /** The chain accepts a transaction whose nullifiers are unspent; anybody may send one. */
  ghost predicate Minable(w: World, tx: ChainTx) {
    && (tx.succeeded ==> forall t <- w.ledger :: t.succeeded ==> Disjoint(tx.nullifiers, t.nullifiers))
    && (tx.origin.Some? ==>
          && tx.origin.value < |w.sent|
          && match w.sent[tx.origin.value]
             case ToBroadcaster(_, _, _, ns) => multiset(tx.nullifiers) == multiset(ns)
             case SelfSigned(_, hash) => tx.hash == hash)
  }

  /** The journal operation a step performs in a phase. */
  function OpOf(phase: Phase, step: Step): Option<(Op, nat)> {
    match (phase, step)
    case (Prepared(q, v, retry), StoreReservation(now)) =>
      Some((if retry then DoReserveRetry(q, v) else DoReserveBroadcaster(q, v), now))
    case (Sent(q, v, retry), Reply(Refuses(code), now)) =>
      Some((if retry then DoMarkRetryRejected(q.id, v.quote, code) else DoMarkRejected(q.id, code), now))
    case (Sent(q, v, retry), Reply(Unclear(code), now)) =>
      Some((DoMarkAmbiguous(q.id, code, if retry then Some(v.quote) else None), now))
    case (Sent(q, v, retry), Reply(Reports(hash), now)) => Some((DoMarkReported(q.id, hash), now))
    case (Found(id, hash), StoreHash(now)) => Some((DoMarkSubmitted(id, hash), now))
    case (Witnessed(id, _, receipt), StoreReceipt(now)) =>
      Some((DoMarkMined(id, receipt.blockNumber, receipt.succeeded), now))
    case (SelfChecked(q), StoreSelfSigned(signer, hash, nonce, now)) => Some((DoReserve(q, signer, hash, nonce), now))
    case (SelfSent(q, hash), StoreSelfSignedHash(now)) => Some((DoMarkSubmitted(q.id, hash), now))
    case (SelfMarked(q, hash), StoreSelfSignedReceipt(block, succeeded, now)) =>
      Some((DoMarkMined(q.id, block, succeeded), now))
    case _ => None
  }

  /** Where the command continues after its journal operation. */
  function Then(phase: Phase, step: Step): Phase {
    match (phase, step)
    case (Prepared(q, v, retry), _) => Stored(q, v, retry)
    case (Sent(q, v, retry), Reply(Reports(_), _)) => Recovering(q.id, v.nullifiers)
    case (Found(id, hash), _) => Marked(id, hash)
    case (SelfChecked(q), StoreSelfSigned(_, hash, _, _)) => SelfStored(q, hash)
    case (SelfSent(q, hash), _) => SelfMarked(q, hash)
    case _ => Idle
  }

  /** A command begins by reading the journal; without one it can read, or if its guard throws, it does not start. */
  function Begin(j: Journal, step: Step): Phase { if Readable(j) then BeginRead(j, step) else Idle }

  function BeginRead(j: Journal, step: Step): Phase {
    match step
    case BeginSend(q, payer) => if Find(j, q.id).None? then Checked(q, payer, false, {}) else Idle
    case BeginRetry(q, payer) =>
      (match Retryable(j, q, payer)
       case Ok(r) => Checked(q, payer, true, Tried(r))
       case Thrown(_) => Idle)
    case BeginRecovery(id, payer) =>
      var at := Find(j, id);
      if at.Some? && j[at.value].mode == BROADCASTER && j[at.value].payer == Some(payer)
         && j[at.value].status in {SUBMITTING, SUBMITTED}
      then Recovering(id, j[at.value].Nullifiers())
      else Idle
    case BeginSelfSigned(q) => if Find(j, q.id).None? then SelfChecked(q) else Idle
    case _ => Idle
  }

  /** Steps that do not write the journal. A step that does not apply changes nothing. */
  ghost function Quiet(w: World, step: Step, terms: Terms): World {
    match (w.phase, step)
    case (_, Crash) => w.(phase := Idle)
    case (_, Mine(tx)) => if Minable(w, tx) then w.(ledger := w.ledger + [tx]) else w
    case (Idle, _) => w.(phase := Begin(w.journal, step))
    case (Checked(q, payer, retry, tried), Prepare(p)) =>
      (match Plan(w.journal, q.id, payer, tried, p, terms)
       case Some(v) => w.(phase := Prepared(q, v, retry))
       case None => w.(phase := Idle))
    case (Stored(q, v, retry), Send) =>
      w.(sent := w.sent + [ToBroadcaster(q.id, v.broadcaster, v.feesID, v.nullifiers)], phase := Sent(q, v, retry))
    case (SelfStored(q, hash), SendSelfSigned) =>
      w.(sent := w.sent + [SelfSigned(q.id, hash)], phase := SelfSent(q, hash))
    case (Recovering(id, ns), Recover(None)) => w.(phase := Idle)
    case (Recovering(id, ns), Recover(Some(hash))) =>
      if Completed(w.ledger, ns, hash) then w.(phase := Found(id, hash)) else w
    case (Marked(id, hash), ReadReceipt(responses)) =>
      var receipt := Rpc.SelectReceipt(hash, responses);
      w.(observed := w.observed + [Read(hash, responses)],
         phase := if receipt.Some? then Witnessed(id, hash, receipt.value) else Idle)
    case _ => w
  }

  ghost function Next(w: World, step: Step, terms: Terms): World {
    match OpOf(w.phase, step)
    case Some((op, now)) =>
      (match Apply(w.journal, op, now)
       case Ok(j) => w.(journal := j, phase := Then(w.phase, step))
       case Thrown(_) => w.(phase := Idle))
    case None => Quiet(w, step, terms)
  }

  ghost function RunFrom(w: World, steps: seq<Step>, terms: Terms): World {
    if steps == [] then w
    else Next(RunFrom(w, steps[..|steps| - 1], terms), steps[|steps| - 1], terms)
  }

  ghost function Run(steps: seq<Step>, terms: Terms): World { RunFrom(World([], Idle, [], [], []), steps, terms) }

  /** How many messages for an intent went to Broadcasters. */
  function Sends(sent: seq<Message>, id: IntentId): nat {
    if sent == [] then 0
    else
      var last := |sent| - 1;
      Sends(sent[..last], id) + if sent[last].ToBroadcaster? && sent[last].intent == id then 1 else 0
  }
}
