/** What every step of the payer's protocol keeps. */
module PayerInvariant {
  import opened Results
  import opened JournalModel
  import opened JournalSize
  import opened JournalFacts
  import opened PayerProtocol
  import Rpc = ReceiptQuorum

  /** The reservation of this mode and these nullifiers is in the journal. */
  predicate Covered(j: Journal, m: Message) {
    var at := Find(j, m.intent);
    && at.Some?
    && var r := j[at.value];
       match m
       case ToBroadcaster(_, broadcaster, _, ns) =>
         r.mode == BROADCASTER && multiset(r.Nullifiers()) == multiset(ns) && broadcaster in Tried(r)
       case SelfSigned(_, hash) => r.mode == SELF_SIGNED && r.hash == Some(hash)
  }

  ghost predicate MessagesOk(j: Journal, sent: seq<Message>) {
    && (forall m <- sent :: Covered(j, m))
    && forall a, b |
         0 <= a < b < |sent| && sent[a].ToBroadcaster? && sent[b].ToBroadcaster? && sent[a].intent == sent[b].intent ::
         sent[a].broadcaster != sent[b].broadcaster
  }

  ghost predicate LedgerOk(ledger: seq<ChainTx>, sent: seq<Message>) {
    && (forall a, b | 0 <= a < b < |ledger| && ledger[a].succeeded && ledger[b].succeeded ::
          Disjoint(ledger[a].nullifiers, ledger[b].nullifiers))
    && forall tx <- ledger :: tx.origin.Some? ==>
         && tx.origin.value < |sent|
         && (sent[tx.origin.value].ToBroadcaster? ==>
               multiset(tx.nullifiers) == multiset(sent[tx.origin.value].nullifiers))
  }

  /** No Broadcaster was used twice for an intent. */
  predicate TriedOnce(r: Record) {
    && r.broadcaster.Some?
    && (forall a <- r.Retries() :: a.broadcaster != r.broadcaster.value)
    && forall i, j | 0 <= i < j < |r.Retries()| :: r.Retries()[i].broadcaster != r.Retries()[j].broadcaster
  }

  /** The outcome in a record is what a receipt quorum selected for its canonical hash. */
  predicate Backed(read: Read, r: Record) {
    var selected := Rpc.SelectReceipt(read.hash, read.responses);
    && selected.Some? && Some(read.hash) == r.hash && r.blockNumber == Some(selected.value.blockNumber)
    && selected.value.succeeded == (r.status == MINED)
  }

  /** The accounts of one record: messages sent, messages reserved but not sent, messages without an answer. */
  ghost predicate Accounted(
    r: Record, sends: nat, unsent: nat, unanswered: nat, ledger: seq<ChainTx>, observed: seq<Read>)
  {
    r.mode == BROADCASTER ==>
      && sends + unsent <= 1 + |r.Retries()|
      && |r.Codes()| + unanswered <= 1 + |r.Retries()|
      && TriedOnce(r)
      && (r.status == REJECTED ==> sends == 1 && r.Codes() == [] && r.Retries() == [])
      && (r.hash.Some? ==> Completed(ledger, r.Nullifiers(), r.hash.value))
      && (r.status in {MINED, REVERTED} ==> exists read <- observed :: Backed(read, r))
  }

  function Unsent(phase: Phase, id: IntentId): nat { if phase.Stored? && phase.q.id == id then 1 else 0 }

  function Unanswered(phase: Phase, id: IntentId): nat {
    if (phase.Stored? || phase.Sent?) && phase.q.id == id then 1 else 0
  }

  ghost predicate RecordOk(w: World, r: Record) {
    Accounted(r, Sends(w.sent, r.intentId), Unsent(w.phase, r.intentId), Unanswered(w.phase, r.intentId),
              w.ledger, w.observed)
  }

  /** The record of a request as signed, for this payer and these nullifiers. */
  predicate Requested(r: Record, q: Request, v: Reservation) {
    && r.mode == BROADCASTER && r.fingerprint == RequestFingerprint(q.id, q.signature) && r.payer == Some(v.payer)
    && multiset(r.Nullifiers()) == multiset(v.nullifiers)
  }

  /** The reservation that a message in flight belongs to, on all the terms of the transfer that made it. */
  predicate InFlight(r: Record, q: Request, v: Reservation, retry: bool) {
    && Requested(r, q, v) && Unresolved(r)
    && if retry
       then r.Retries() != [] && var a := r.Retries()[|r.Retries()| - 1];
            && a.outcome == RESERVED && a.quote == v.quote && a.broadcaster == v.broadcaster
            && a.feesID == v.feesID && a.fee == v.fee
       else && r.Retries() == [] && r.broadcaster == Some(v.broadcaster) && r.Codes() == []
            && r.quote == Some(v.quote) && r.feesID == Some(v.feesID) && r.fee == Some(v.fee)
  }

  predicate Retriable(r: Record, q: Request, payer: RailgunAddress) {
    RetryMatches(r, q, payer) && |r.Retries()| < MAX_RETRIES
  }

  predicate Open(r: Record) { r.mode == BROADCASTER && r.status in {SUBMITTING, SUBMITTED} }

  predicate Submitted(r: Record, mode: Mode, hash: Hash) {
    r.mode == mode && r.status == SUBMITTED && r.hash == Some(hash)
  }

  predicate Signed(r: Record, hash: Hash) { r.mode == SELF_SIGNED && r.status == SUBMITTING && r.hash == Some(hash) }

  /** What the running command may rely on. */
  ghost predicate PhaseOk(w: World) {
    w.phase.Idle?
    || var at := Find(w.journal, w.phase.Subject().value);
       match w.phase
       case Idle => true
       case Checked(q, payer, retry, tried) =>
         && Readable(w.journal)
         && if retry then at.Some? && Retriable(w.journal[at.value], q, payer) && tried == Tried(w.journal[at.value])
            else at.None? && tried == {}
       case Prepared(q, v, retry) =>
         && Readable(w.journal) && GoodReservation(v) && !Conflicts(w.journal, q.id, v.nullifiers)
         && if retry then at.Some? && Retriable(w.journal[at.value], q, v.payer)
              && v.broadcaster !in Tried(w.journal[at.value])
            else at.None?
       case Stored(q, v, retry) =>
         && at.Some? && InFlight(w.journal[at.value], q, v, retry)
         && (!retry ==> Sends(w.sent, q.id) == 0)
         && forall m <- w.sent :: m.ToBroadcaster? && m.intent == q.id ==> m.broadcaster != v.broadcaster
       case Sent(q, v, retry) =>
         && at.Some? && InFlight(w.journal[at.value], q, v, retry)
         && (!retry ==> Sends(w.sent, q.id) == 1)
         && w.sent != [] && w.sent[|w.sent| - 1] == ToBroadcaster(q.id, v.broadcaster, v.feesID, v.nullifiers)
       case Recovering(id, ns) =>
         at.Some? && Open(w.journal[at.value]) && multiset(w.journal[at.value].Nullifiers()) == multiset(ns)
       case Found(id, hash) =>
         at.Some? && Open(w.journal[at.value]) && Completed(w.ledger, w.journal[at.value].Nullifiers(), hash)
       case Marked(id, hash) => at.Some? && Submitted(w.journal[at.value], BROADCASTER, hash)
       case Witnessed(id, hash, receipt) =>
         && at.Some? && Submitted(w.journal[at.value], BROADCASTER, hash)
         && exists read <- w.observed :: read.hash == hash && Rpc.SelectReceipt(hash, read.responses) == Some(receipt)
       case SelfChecked(q) => Readable(w.journal) && at.None?
       case SelfStored(q, hash) => at.Some? && Signed(w.journal[at.value], hash)
       case SelfSent(q, hash) => at.Some? && Signed(w.journal[at.value], hash)
       case SelfMarked(q, hash) => at.Some? && Submitted(w.journal[at.value], SELF_SIGNED, hash)
  }

  ghost predicate Inv(w: World) {
    && JournalOk(w.journal)
    && MessagesOk(w.journal, w.sent)
    && LedgerOk(w.ledger, w.sent)
    && (forall r <- w.journal :: RecordOk(w, r))
    && PhaseOk(w)
  }

  // ---- Frames -----------------------------------------------------------------------------------

  /** An operation touches the record of its intent only. */
  ghost predicate TouchesOnly(j: Journal, after: Journal, id: IntentId) {
    && |j| <= |after|
    && (forall k | 0 <= k < |j| && j[k].intentId != id :: after[k] == j[k])
    && (forall k | |j| <= k < |after| :: after[k].intentId == id)
  }

  lemma ChangeTouches(j: Journal, after: Journal, id: IntentId)
    requires JournalOk(j) && Change(j, after, id)
    ensures TouchesOnly(j, after, id)
  {
    hide ValidJournal, Forward;
  }

  lemma FindKept(j: Journal, after: Journal, id: IntentId)
    requires Onward(j, after) && Find(j, id).Some?
    ensures Find(after, id) == Find(j, id)
  {
    var k := Find(j, id).value;
    assert Forward(j[k], after[k]);
    assert after[k] in after;
    assert forall n | 0 <= n < k :: Forward(j[n], after[n]);
  }

  lemma TriedGrows(r: Record, s: Record)
    requires Forward(r, s)
    ensures Tried(r) <= Tried(s)
  {
    forall a <- r.Retries() ensures a.broadcaster in Tried(s) {
      var k :| 0 <= k < |r.Retries()| && r.Retries()[k] == a;
      assert s.Retries()[k] in s.Retries() && s.Retries()[k].broadcaster == a.broadcaster;
    }
  }

  lemma CoveredKept(j: Journal, after: Journal, m: Message)
    requires Onward(j, after) && Covered(j, m)
    ensures Covered(after, m)
  {
    FindKept(j, after, m.intent);
    var k := Find(j, m.intent).value;
    assert Forward(j[k], after[k]);
    TriedGrows(j[k], after[k]);
  }

  lemma OthersKept(w: World, j: Journal, id: IntentId, next: Phase)
    requires TouchesOnly(w.journal, j, id) && Onward(w.journal, j) && forall r <- w.journal :: RecordOk(w, r)
    requires w.phase.Subject() == Some(id) && (next.Idle? || next.Subject() == Some(id))
    requires forall r <- j :: r.intentId == id ==> RecordOk(w.(journal := j, phase := next), r)
    ensures forall r <- j :: RecordOk(w.(journal := j, phase := next), r)
  {
    forall r <- j ensures RecordOk(w.(journal := j, phase := next), r) {
      if r.intentId != id {
        var k :| 0 <= k < |j| && j[k] == r;
        assert k < |w.journal|;
        assert Forward(w.journal[k], j[k]);
        assert r == w.journal[k] && r in w.journal;
        assert RecordOk(w, r);
        hide Accounted, Forward;
      }
    }
  }

  lemma MessagesKept(w: World, j: Journal)
    requires Onward(w.journal, j) && MessagesOk(w.journal, w.sent)
    ensures MessagesOk(j, w.sent)
  {
    hide Onward, Covered;
    forall m <- w.sent ensures Covered(j, m) { CoveredKept(w.journal, j, m); }
  }

  /** A journal operation keeps the invariant if it leaves the record it touches, and the command, in order. */
  lemma WriteKeeps(w: World, op: Op, now: nat, next: Phase)
    requires Inv(w) && Apply(w.journal, op, now).Ok?
    requires w.phase.Subject() == Some(Subject(op)) && (next.Idle? || next.Subject() == Some(Subject(op)))
    requires var after := w.(journal := Apply(w.journal, op, now).value, phase := next);
             && PhaseOk(after)
             && forall r <- after.journal :: r.intentId == Subject(op) ==> RecordOk(after, r)
    ensures Inv(w.(journal := Apply(w.journal, op, now).value, phase := next))
  {
    var j, id := w.journal, Subject(op);
    var after := Apply(j, op, now).value;
    ApplyChanges(j, op, now);
    assert After(j, op, now) == after;
    hide Apply, After, JournalOk, PhaseOk, LedgerOk, RecordOk, MessagesOk, Onward, Change;
    ChangeKeepsOk(j, after, id);
    ChangeIsOnward(j, after, id);
    ChangeTouches(j, after, id);
    MessagesKept(w, after);
    OthersKept(w, after, id, next);
  }

  // ---- The ledger -------------------------------------------------------------------------------

  lemma CompletedGrows(ledger: seq<ChainTx>, tx: ChainTx, ns: seq<Nullifier>, hash: Hash)
    requires Completed(ledger, ns, hash)
    ensures Completed(ledger + [tx], ns, hash)
  {
    var t :| t in ledger && t.succeeded && t.hash == hash && forall n <- ns :: n in t.nullifiers;
    assert t in ledger + [tx];
  }

  /** The nullifiers of a record identify at most one successful transaction. */
  lemma CompletedOnce(ledger: seq<ChainTx>, sent: seq<Message>, ns: seq<Nullifier>, a: Hash, b: Hash)
    requires LedgerOk(ledger, sent) && ns != []
    requires Completed(ledger, ns, a) && Completed(ledger, ns, b)
    ensures a == b
  {
    var s :| s in ledger && s.succeeded && s.hash == a && forall n <- ns :: n in s.nullifiers;
    var t :| t in ledger && t.succeeded && t.hash == b && forall n <- ns :: n in t.nullifiers;
    var i :| 0 <= i < |ledger| && ledger[i] == s;
    var k :| 0 <= k < |ledger| && ledger[k] == t;
    assert ns[0] in s.nullifiers && ns[0] in t.nullifiers;
  }
}
