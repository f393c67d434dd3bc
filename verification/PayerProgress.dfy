/** What the protocol's guards let through: a payment that may be sent can be sent. */
module PayerProgress {
  import opened JournalModel
  import opened JournalSize
  import opened BroadcasterSelection
  import opened PayerProtocol
  import opened PayerInvariant
  import opened PayerSteps
  import opened PayerTheorems
  import opened PayerCommands

  /** Some untried Broadcaster offers a valid quote, and the quotes on offer stay live while the transfer is
      prepared. */
  ghost predicate QuotesStayLive(p: Preparation, tried: set<RailgunAddress>, terms: Terms) {
    && (exists q: PricedQuote :: Quoted(q) in p.offered && ValidQuote(q, terms, p.offeredAt) && q.broadcaster !in tried)
    && forall q: PricedQuote :: Quoted(q) in p.offered && ValidQuote(q, terms, p.offeredAt) ==>
         && Quoted(q) in p.current && ValidQuote(q, terms, p.currentAt)
         && Quoted(q) in p.submitted && ValidQuote(q, terms, p.submittedAt)
  }

  /** A positive fee within the limit, and between one and sixty-four distinct nullifiers other than zero. */
  ghost predicate Affordable(p: Preparation) {
    && 0 < p.fee <= p.limit && 1 <= |p.nullifiers| <= 64 && 0 !in p.nullifiers
    && forall i, j | 0 <= i < j < |p.nullifiers| :: p.nullifiers[i] != p.nullifiers[j]
  }

  lemma AffordableIsPopulated(p: Preparation)
    requires Affordable(p)
    ensures Populated(p.nullifiers) && 0 < p.fee <= p.limit
  {
  }

  /** With live quotes, an acceptable fee and free nullifiers, preparation succeeds. */
  lemma LiveQuotesGiveAPlan(
    j: Journal, id: IntentId, payer: RailgunAddress, tried: set<RailgunAddress>, p: Preparation, terms: Terms)
    requires QuotesStayLive(p, tried, terms) && Affordable(p) && Readable(j) && !Conflicts(j, id, p.nullifiers)
    ensures Plan(j, id, payer, tried, p, terms).Some?
  {
    AffordableIsPopulated(p);
    hide ValidQuote, Populated, Affordable, Conflicts, Readable, Discover, SelectSubmission;
    DiscoverIsBest(p.offered, tried, terms, p.offeredAt);
    var first := Discover(p.offered, tried, terms, p.offeredAt).value;
    SelectionKeepsProof(p.current, first, terms, p.currentAt);
    var second := SelectSubmission(p.current, first, terms, p.currentAt).value;
    assert ProofCompatible(first, second);
    SelectionKeepsProof(p.submitted, second, terms, p.submittedAt);
  }

  /** Where a command stands before it prepares: a journal that can be read, and a new intent or a retry. */
  predicate MayBegin(j: Journal, q: Request, payer: RailgunAddress, retry: bool, p: Preparation) {
    && Readable(j)
    && if retry then
         var r := Retryable(j, q, payer);
         r.Ok? && SameNullifierSet(r.value.Nullifiers(), p.nullifiers)
       else Find(j, q.id).None?
  }

  function TriedBefore(j: Journal, q: Request, payer: RailgunAddress, retry: bool): set<RailgunAddress> {
    match Retryable(j, q, payer)
    case Ok(r) => if retry then Tried(r) else {}
    case Thrown(_) => {}
  }

  lemma BeginsAtTried(w: World, q: Request, payer: RailgunAddress, retry: bool, p: Preparation, terms: Terms)
    requires w.phase.Idle? && MayBegin(w.journal, q, payer, retry, p)
    ensures Next(w, BeginStep(q, payer, retry), terms)
         == w.(phase := Checked(q, payer, retry, TriedBefore(w.journal, q, payer, retry)))
  {
    hide Tried, SameNullifierSet, Readable;
    NextBegin(w, q, payer, retry, terms);
  }

  lemma ReservationGoesThrough(w: World, now: nat)
    requires Inv(w) && w.phase.Prepared?
    requires w.phase.retry ==>
               Find(w.journal, w.phase.q.id).Some?
               && SameNullifierSet(w.journal[Find(w.journal, w.phase.q.id).value].Nullifiers(), w.phase.v.nullifiers)
    ensures Reserving(w.journal, w.phase.q, w.phase.v, w.phase.retry, now).Ok?
  {
    hide Inv, ReserveRetry, ReserveBroadcaster, SameNullifierSet, Reading;
    if w.phase.retry { RetryWrites(w, now); } else { FirstWrites(w, now); }
  }

  /** From every idle state that runs reach, a transfer that may begin, with live quotes, an affordable fee and
      nullifiers that no other active reservation holds, gets its message out; in particular a first send, and each of
      up to three retries of an unanswered one. */
  lemma PaymentCanBeSent(
    steps: seq<Step>, q: Request, payer: RailgunAddress, retry: bool, p: Preparation, now: nat, terms: Terms)
    requires var w := Run(steps, terms);
             && w.phase.Idle? && MayBegin(w.journal, q, payer, retry, p)
             && QuotesStayLive(p, TriedBefore(w.journal, q, payer, retry), terms)
             && Affordable(p) && !Conflicts(w.journal, q.id, p.nullifiers)
    ensures var w := Run(steps, terms);
            var after := Run(steps + [BeginStep(q, payer, retry), Prepare(p), StoreReservation(now), Send], terms);
            && after.phase.Sent? && after.phase.q == q && after.phase.v.payer == payer && after.phase.retry == retry
            && |after.sent| == |w.sent| + 1
            && var m := after.sent[|w.sent|];
               m.ToBroadcaster? && m.intent == q.id && m.nullifiers == p.nullifiers
               && m.broadcaster !in TriedBefore(w.journal, q, payer, retry)
    ensures !retry ==>
              var w := Run(steps, terms);
              var after := Run(steps + [BeginStep(q, payer, retry), Prepare(p), StoreReservation(now), Send], terms);
              after.journal == w.journal + [BroadcasterRecord(q, after.phase.v, now)]
  {
    var w, tried := Run(steps, terms), TriedBefore(Run(steps, terms).journal, q, payer, retry);
    RunIsSafe(steps, terms);
    var begin, prepare, store := BeginStep(q, payer, retry), Prepare(p), StoreReservation(now);
    RunSplit(World([], Idle, [], [], []), steps, [begin, prepare, store, Send], terms);
    RunFour(w, begin, prepare, store, Send, terms);
    BeginsAtTried(w, q, payer, retry, p, terms);
    LiveQuotesGiveAPlan(w.journal, q.id, payer, tried, p, terms);
    var checked := w.(phase := Checked(q, payer, retry, tried));
    PlanIsSound(w.journal, q.id, payer, tried, p, terms);
    var v := Plan(w.journal, q.id, payer, tried, p, terms).value;
    NextPrepare(checked, p, terms);
    var prepared := w.(phase := Prepared(q, v, retry));
    NextKeeps(w, begin, terms);
    NextKeeps(checked, prepare, terms);
    MayStillStore(w.journal, q, payer, retry, p);
    hide Inv, Next, Run, RunFrom, Plan, Conflicts, QuotesStayLive, MayBegin, TriedBefore, Reserving, BeginStep, Tried,
    Readable, BroadcasterRecord;
    NextStoreReservation(prepared, now, terms);
    ReservationGoesThrough(prepared, now);
    if !retry { FirstAppends(w.journal, q, v, now); }
    NextSend(Next(prepared, store, terms), terms);
  }

  lemma FirstAppends(j: Journal, q: Request, v: Reservation, now: nat)
    requires Reserving(j, q, v, false, now).Ok?
    ensures Reserving(j, q, v, false, now).value == j + [BroadcasterRecord(q, v, now)]
  {
    hide Conflicts, ValidJournal, Readable;
  }

  lemma MayStillStore(j: Journal, q: Request, payer: RailgunAddress, retry: bool, p: Preparation)
    requires MayBegin(j, q, payer, retry, p)
    ensures retry ==> Find(j, q.id).Some? && SameNullifierSet(j[Find(j, q.id).value].Nullifiers(), p.nullifiers)
    ensures Readable(j)
  {
    hide SameNullifierSet, Readable;
  }

  lemma NextSend(w: World, terms: Terms)
    requires w.phase.Stored?
    ensures var q, v := w.phase.q, w.phase.v;
            Next(w, Send, terms) == w.(sent := w.sent + [ToBroadcaster(q.id, v.broadcaster, v.feesID, v.nullifiers)],
                                       phase := Sent(q, v, w.phase.retry))
  {
  }
}
