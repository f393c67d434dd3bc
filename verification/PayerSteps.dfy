/** Each step of the payer's protocol keeps its invariant. */
module PayerSteps {
  import opened Results
  import opened Sequences
  import opened JournalModel
  import opened JournalSize
  import opened JournalFacts
  import opened BroadcasterSelection
  import opened PayerProtocol
  import opened PayerInvariant
  import opened Quorum
  import Rpc = ReceiptQuorum

  lemma {:induction false} NoSends(sent: seq<Message>, id: IntentId)
    requires forall m <- sent :: m.ToBroadcaster? ==> m.intent != id
    ensures Sends(sent, id) == 0
  {
    if sent != [] {
      var last := |sent| - 1;
      assert sent[last] in sent;
      assert forall m <- sent[..last] :: m in sent;
      NoSends(sent[..last], id);
    }
  }

  lemma SendsAfter(sent: seq<Message>, m: Message, id: IntentId)
    ensures Sends(sent + [m], id) == Sends(sent, id) + if m.ToBroadcaster? && m.intent == id then 1 else 0
  {
    assert (sent + [m])[..|sent|] == sent;
  }

  lemma FindAppended(j: Journal, r: Record)
    requires Find(j, r.intentId).None?
    ensures Find(j + [r], r.intentId) == Some(|j|)
  {
    assert (j + [r])[|j|] in j + [r];
    assert forall n | 0 <= n < |j| :: (j + [r])[n] == j[n] && j[n] in j;
  }

  lemma FindUpdated(j: Journal, k: nat, r: Record)
    requires JournalOk(j) && Find(j, r.intentId) == Some(k)
    ensures Find(j[k := r], r.intentId) == Some(k)
    ensures forall x <- j[k := r] :: x.intentId == r.intentId ==> x == r
  {
    assert j[k := r][k] in j[k := r];
    assert forall n | 0 <= n < k :: j[k := r][n] == j[n];
  }

  // ---- The chain --------------------------------------------------------------------------------

  lemma MineKeeps(w: World, tx: ChainTx)
    requires Inv(w) && Minable(w, tx)
    ensures Inv(w.(ledger := w.ledger + [tx]))
  {
    var after := w.(ledger := w.ledger + [tx]);
    hide JournalOk, MessagesOk;
    assert LedgerOk(after.ledger, after.sent) by {
      forall a, b | 0 <= a < b < |after.ledger| && after.ledger[a].succeeded && after.ledger[b].succeeded
        ensures Disjoint(after.ledger[a].nullifiers, after.ledger[b].nullifiers)
      {
        if b == |w.ledger| {
          assert w.ledger[a] in w.ledger;
          assert Disjoint(tx.nullifiers, w.ledger[a].nullifiers);
        }
      }
    }
    hide LedgerOk;
    forall r <- after.journal ensures RecordOk(after, r) {
      assert RecordOk(w, r);
      if r.mode == BROADCASTER && r.hash.Some? { CompletedGrows(w.ledger, tx, r.Nullifiers(), r.hash.value); }
    }
    if w.phase.Found? {
      CompletedGrows(w.ledger, tx, w.journal[Find(w.journal, w.phase.intent).value].Nullifiers(), w.phase.hash);
    }
  }

  // ---- Steps without a write --------------------------------------------------------------------

  /** Only the command's own record of where it is changes. */
  lemma PhaseKeeps(w: World, next: Phase)
    requires Inv(w) && PhaseOk(w.(phase := next))
    requires !next.Stored? && !next.Sent?
    ensures Inv(w.(phase := next))
  {
    var after := w.(phase := next);
    hide JournalOk, MessagesOk, LedgerOk, PhaseOk;
    forall r <- after.journal ensures RecordOk(after, r) {
      assert RecordOk(w, r);
    }
  }

  lemma BeginIsOk(w: World, step: Step)
    requires w.phase.Idle? && JournalOk(w.journal)
    ensures var phase := Begin(w.journal, step);
            PhaseOk(w.(phase := phase)) && !phase.Stored? && !phase.Sent?
  {
    hide JournalOk, Readable, Tried;
  }

  lemma BeginKeeps(w: World, step: Step)
    requires Inv(w) && w.phase.Idle?
    ensures Inv(w.(phase := Begin(w.journal, step)))
  {
    hide *;
    JournalInOrder(w);
    BeginIsOk(w, step);
    PhaseKeeps(w, Begin(w.journal, step));
  }

  /** A plan reserves with a Broadcaster that was not tried, as a well-formed reservation without conflicts. */
  lemma PlanIsSound(
    j: Journal, id: IntentId, payer: RailgunAddress, tried: set<RailgunAddress>, p: Preparation, terms: Terms)
    requires Plan(j, id, payer, tried, p, terms).Some?
    ensures var v := Plan(j, id, payer, tried, p, terms).value;
            && v.payer == payer && v.broadcaster !in tried && GoodReservation(v) && v.fee <= p.limit
            && v.nullifiers == p.nullifiers && !Conflicts(j, id, v.nullifiers)
    ensures var v := Plan(j, id, payer, tried, p, terms).value;
            var first := Discover(p.offered, tried, terms, p.offeredAt);
            && first.Some? && v.broadcaster == first.value.broadcaster
            && v.quote.broadcaster == first.value.broadcaster && v.quote.token == first.value.token
            && v.quote.feePerUnitGas.Amount? && v.quote.feePerUnitGas.value == first.value.feePerUnitGas.value
    ensures var v := Plan(j, id, payer, tried, p, terms).value;
            && v.fee == p.fee
            && exists q: PricedQuote ::
                 && Quoted(q) in p.submitted && Offered(q, terms, p.submittedAt)
                 && v.quote == Digest(q) && v.broadcaster == q.broadcaster && v.feesID == q.feesID
  {
    OfferedIff(Quotes(tried, p, terms).value.2, terms, p.submittedAt);
    var quotes := Quotes(tried, p, terms).value;
    DiscoverIsBest(p.offered, tried, terms, p.offeredAt);
    SelectionKeepsProof(p.current, quotes.0, terms, p.currentAt);
    SelectionKeepsProof(p.submitted, quotes.1, terms, p.submittedAt);
  }

  lemma PreparedIsOk(w: World, v: Reservation)
    requires PhaseOk(w) && w.phase.Checked?
    requires v.payer == w.phase.payer && v.broadcaster !in w.phase.tried && GoodReservation(v)
    requires !Conflicts(w.journal, w.phase.q.id, v.nullifiers)
    ensures PhaseOk(w.(phase := Prepared(w.phase.q, v, w.phase.retry)))
  {
    hide GoodReservation, Conflicts, Tried;
  }

  lemma PrepareKeeps(w: World, p: Preparation, terms: Terms)
    requires Inv(w) && w.phase.Checked?
    ensures Inv(Quiet(w, Prepare(p), terms))
  {
    hide Plan, JournalOk, MessagesOk, LedgerOk, RecordOk, Conflicts, GoodReservation;
    var plan := Plan(w.journal, w.phase.q.id, w.phase.payer, w.phase.tried, p, terms);
    if plan.Some? {
      PlanIsSound(w.journal, w.phase.q.id, w.phase.payer, w.phase.tried, p, terms);
      PreparedIsOk(w, plan.value);
      hide PhaseOk;
      PhaseKeeps(w, Prepared(w.phase.q, plan.value, w.phase.retry));
    } else {
      PhaseKeeps(w, Idle);
    }
  }

  lemma CompletedFor(ledger: seq<ChainTx>, a: seq<Nullifier>, b: seq<Nullifier>, hash: Hash)
    requires Completed(ledger, a, hash) && multiset(a) == multiset(b)
    ensures Completed(ledger, b, hash)
  {
    SameElements(a, b);
  }

  lemma RecoverKeeps(w: World, found: Option<Hash>, terms: Terms)
    requires Inv(w) && w.phase.Recovering?
    ensures Inv(Quiet(w, Recover(found), terms))
  {
    if found.None? {
      PhaseKeeps(w, Idle);
    } else if Completed(w.ledger, w.phase.nullifiers, found.value) {
      CompletedFor(w.ledger, w.phase.nullifiers, w.journal[Find(w.journal, w.phase.intent).value].Nullifiers(),
          found.value);
      PhaseKeeps(w, Found(w.phase.intent, found.value));
    }
  }

  lemma ReadRecords(w: World, round: Read)
    requires forall r <- w.journal :: RecordOk(w, r)
    ensures forall r <- w.journal :: RecordOk(w.(observed := w.observed + [round]), r)
  {
    var read := w.(observed := w.observed + [round]);
    forall r <- w.journal ensures RecordOk(read, r) {
      assert RecordOk(w, r);
      if r.mode == BROADCASTER && r.status in {MINED, REVERTED} {
        var earlier :| earlier in w.observed && Backed(earlier, r);
        assert earlier in read.observed;
      }
    }
  }

  lemma ReadOnMarked(w: World, round: Read)
    requires Inv(w) && w.phase.Marked?
    ensures Inv(w.(observed := w.observed + [round]))
  {
    hide JournalOk, MessagesOk, LedgerOk, RecordOk;
    ReadRecords(w, round);
  }

  lemma WitnessedIsOk(w: World, round: Read)
    requires PhaseOk(w) && w.phase.Marked? && round in w.observed && round.hash == w.phase.hash
    ensures var receipt := Rpc.SelectReceipt(w.phase.hash, round.responses);
            receipt.Some? ==> PhaseOk(w.(phase := Witnessed(w.phase.intent, w.phase.hash, receipt.value)))
  {
  }

  lemma ReadKeeps(w: World, responses: seq<Option<Receipt>>, terms: Terms)
    requires Inv(w) && w.phase.Marked?
    ensures Inv(Quiet(w, ReadReceipt(responses), terms))
  {
    hide JournalOk, MessagesOk, LedgerOk, RecordOk, PhaseOk, Rpc.SelectReceipt, Minable, Completed, Begin, Plan;
    var round := Read(w.phase.hash, responses);
    var read := w.(observed := w.observed + [round]);
    ReadOnMarked(w, round);
    var receipt := Rpc.SelectReceipt(w.phase.hash, responses);
    if receipt.Some? {
      assert round in read.observed;
      WitnessedIsOk(read, round);
      PhaseKeeps(read, Witnessed(w.phase.intent, w.phase.hash, receipt.value));
    } else {
      IdleKeeps(read);
    }
  }

  /** One more message: the counts of other intents stand. */
  lemma RecordsAfterSend(w: World, m: Message, next: Phase)
    requires forall r <- w.journal :: RecordOk(w, r)
    requires (w.phase.Stored? && next == Sent(w.phase.q, w.phase.v, w.phase.retry) && m.ToBroadcaster?
             && m.intent == w.phase.q.id)
          || (w.phase.SelfStored? && next.SelfSent? && m.SelfSigned?)
    ensures forall r <- w.journal :: RecordOk(w.(sent := w.sent + [m], phase := next), r)
  {
    var after := w.(sent := w.sent + [m], phase := next);
    hide Completed, Backed, TriedOnce, Sends;
    forall r <- w.journal ensures RecordOk(after, r) {
      assert RecordOk(w, r);
      SendsAfter(w.sent, m, r.intentId);
    }
  }

  lemma MessagesAfterSend(j: Journal, sent: seq<Message>, m: Message)
    requires MessagesOk(j, sent) && Covered(j, m)
    requires m.ToBroadcaster? ==> forall n <- sent :: n.ToBroadcaster? && n.intent == m.intent ==>
             n.broadcaster != m.broadcaster
    ensures MessagesOk(j, sent + [m])
  {
    hide Covered;
    forall a | 0 <= a < |sent| && sent[a].ToBroadcaster? && m.ToBroadcaster? && sent[a].intent == m.intent
      ensures sent[a].broadcaster != m.broadcaster { assert sent[a] in sent; }
  }

  lemma LedgerAfterSend(ledger: seq<ChainTx>, sent: seq<Message>, m: Message)
    requires LedgerOk(ledger, sent)
    ensures LedgerOk(ledger, sent + [m])
  {
  }

  /** What the command knows when it is about to send. */
  lemma StoredFacts(w: World)
    requires Inv(w) && w.phase.Stored?
    ensures var q, v := w.phase.q, w.phase.v;
            && Covered(w.journal, ToBroadcaster(q.id, v.broadcaster, v.feesID, v.nullifiers))
            && (forall n <- w.sent :: n.ToBroadcaster? && n.intent == q.id ==> n.broadcaster != v.broadcaster)
    ensures var q, v := w.phase.q, w.phase.v;
            var m := ToBroadcaster(q.id, v.broadcaster, v.feesID, v.nullifiers);
            PhaseOk(w.(sent := w.sent + [m], phase := Sent(q, v, w.phase.retry)))
  {
    hide JournalOk, MessagesOk, LedgerOk, RecordOk;
    var q, v := w.phase.q, w.phase.v;
    SendsAfter(w.sent, ToBroadcaster(q.id, v.broadcaster, v.feesID, v.nullifiers), q.id);
    var r := w.journal[Find(w.journal, q.id).value];
    assert v.broadcaster in Tried(r) by {
      if w.phase.retry { assert r.Retries()[|r.Retries()| - 1] in r.Retries(); }
    }
  }

  lemma SendKeeps(w: World, terms: Terms)
    requires Inv(w) && w.phase.Stored?
    ensures Inv(Quiet(w, Send, terms))
  {
    var q, v := w.phase.q, w.phase.v;
    var m := ToBroadcaster(q.id, v.broadcaster, v.feesID, v.nullifiers);
    StoredFacts(w);
    hide JournalOk, MessagesOk, LedgerOk, RecordOk, PhaseOk, Covered;
    RecordsAfterSend(w, m, Sent(q, v, w.phase.retry));
    MessagesAfterSend(w.journal, w.sent, m);
    LedgerAfterSend(w.ledger, w.sent, m);
  }

  lemma SendSelfSignedKeeps(w: World, terms: Terms)
    requires Inv(w) && w.phase.SelfStored?
    ensures Inv(Quiet(w, SendSelfSigned, terms))
  {
    var m := SelfSigned(w.phase.q.id, w.phase.hash);
    hide JournalOk, MessagesOk, LedgerOk, RecordOk;
    assert PhaseOk(Quiet(w, SendSelfSigned, terms)) && Covered(w.journal, m);
    hide PhaseOk, Covered;
    RecordsAfterSend(w, m, SelfSent(w.phase.q, w.phase.hash));
    MessagesAfterSend(w.journal, w.sent, m);
    LedgerAfterSend(w.ledger, w.sent, m);
  }

  lemma IdleKeeps(w: World)
    requires Inv(w)
    ensures Inv(w.(phase := Idle))
  {
    PhaseKeeps(w, Idle);
  }

  lemma OutsideKeeps(w: World, step: Step, terms: Terms)
    requires Inv(w) && (step.Crash? || step.Mine? || w.phase.Idle?)
    ensures Inv(Quiet(w, step, terms))
  {
    hide Inv, Minable, Begin, PhaseOk, OpOf;
    if step.Crash? { IdleKeeps(w); }
    else if step.Mine? { if Minable(w, step.tx) { MineKeeps(w, step.tx); } }
    else { BeginKeeps(w, step); }
  }

  /** The steps that can move a running command without a write. */
  predicate Proceeds(phase: Phase, step: Step) {
    || (phase.Checked? && step.Prepare?)
    || (phase.Stored? && step.Send?)
    || (phase.SelfStored? && step.SendSelfSigned?)
    || (phase.Recovering? && step.Recover?)
    || (phase.Marked? && step.ReadReceipt?)
  }

  lemma OthersStand(w: World, step: Step, terms: Terms)
    requires !step.Crash? && !step.Mine? && !w.phase.Idle? && !Proceeds(w.phase, step)
    ensures Quiet(w, step, terms) == w
  {
    hide Minable, Begin, Plan, Completed, Rpc.SelectReceipt;
  }

  lemma QuietKeeps(w: World, step: Step, terms: Terms)
    requires Inv(w)
    ensures Inv(Quiet(w, step, terms))
  {
    hide Inv, Quiet;
    if step.Crash? || step.Mine? || w.phase.Idle? { OutsideKeeps(w, step, terms); }
    else if !Proceeds(w.phase, step) { OthersStand(w, step, terms); }
    else if w.phase.Checked? { PrepareKeeps(w, step.p, terms); }
    else if w.phase.Stored? { SendKeeps(w, terms); }
    else if w.phase.SelfStored? { SendSelfSignedKeeps(w, terms); }
    else if w.phase.Recovering? { RecoverKeeps(w, step.found, terms); }
    else { ReadKeeps(w, step.responses, terms); }
  }

  // ---- Steps that write the journal -------------------------------------------------------------

  ghost predicate Keeps(w: World, step: Step, terms: Terms) { Inv(Next(w, step, terms)) }

  /** A step with a journal operation that goes through. */
  lemma NextWrites(w: World, step: Step, op: Op, now: nat, next: Phase, terms: Terms)
    requires OpOf(w.phase, step) == Some((op, now)) && Then(w.phase, step) == next && Apply(w.journal, op, now).Ok?
    ensures Next(w, step, terms) == w.(journal := Apply(w.journal, op, now).value, phase := next)
  {
    hide Apply, OpOf, Then, Quiet;
  }

  /** A step with a journal operation that throws ends the command. */
  lemma FailureKeeps(w: World, step: Step, terms: Terms)
    requires Inv(w) && OpOf(w.phase, step).Some?
    requires Apply(w.journal, OpOf(w.phase, step).value.0, OpOf(w.phase, step).value.1).Thrown?
    ensures Keeps(w, step, terms)
  {
    hide Apply, OpOf;
    PhaseKeeps(w, Idle);
  }

  /** `WriteKeeps` for an operation that replaces the record at `k`. */
  lemma UpdateKeeps(w: World, op: Op, now: nat, next: Phase, k: nat, s: Record)
    requires Inv(w) && w.phase.Subject() == Some(Subject(op)) && (next.Idle? || next.Subject() == Some(Subject(op)))
    requires Find(w.journal, Subject(op)) == Some(k) && s.intentId == Subject(op)
    requires Apply(w.journal, op, now) == Ok(w.journal[k := s])
    requires var after := w.(journal := w.journal[k := s], phase := next); PhaseOk(after) && RecordOk(after, s)
    ensures Inv(w.(journal := Apply(w.journal, op, now).value, phase := next))
  {
    assert JournalOk(w.journal);
    hide Apply, Inv, JournalOk, PhaseOk, RecordOk, Subject, Find;
    FindUpdated(w.journal, k, s);
    WriteKeeps(w, op, now, next);
  }

  /** `WriteKeeps` for an operation that appends a record. */
  lemma AppendKeeps(w: World, op: Op, now: nat, next: Phase, r: Record)
    requires Inv(w) && w.phase.Subject() == Some(Subject(op)) && next.Subject() == Some(Subject(op))
    requires Find(w.journal, Subject(op)).None?
    requires Apply(w.journal, op, now) == Ok(w.journal + [r])
    requires var after := w.(journal := w.journal + [r], phase := next); PhaseOk(after) && RecordOk(after, r)
    ensures Inv(w.(journal := Apply(w.journal, op, now).value, phase := next))
  {
    hide Apply, Inv, PhaseOk, RecordOk, Subject;
    assert forall x <- w.journal + [r] :: x in w.journal || x == r;
    WriteKeeps(w, op, now, next);
  }

  lemma NotSentYet(w: World, id: IntentId)
    requires Inv(w) && Find(w.journal, id).None?
    ensures forall m <- w.sent :: m.intent != id
    ensures Sends(w.sent, id) == 0
  {
    hide JournalOk, PhaseOk, LedgerOk, RecordOk;
    forall m <- w.sent ensures m.intent != id { assert Covered(w.journal, m); }
    NoSends(w.sent, id);
  }

  lemma StoredIsOk(w: World)
    requires w.phase.Stored? && Find(w.journal, w.phase.q.id).Some?
    requires InFlight(w.journal[Find(w.journal, w.phase.q.id).value], w.phase.q, w.phase.v, w.phase.retry)
    requires !w.phase.retry ==> Sends(w.sent, w.phase.q.id) == 0
    requires forall m <- w.sent :: m.ToBroadcaster? && m.intent == w.phase.q.id ==>
             m.broadcaster != w.phase.v.broadcaster
    ensures PhaseOk(w)
  {
  }

  lemma FirstRecordOk(w: World, v: Reservation, now: nat)
    requires Inv(w) && w.phase.Prepared? && !w.phase.retry && v == w.phase.v
    ensures Find(w.journal, w.phase.q.id).None?
    ensures var r := BroadcasterRecord(w.phase.q, v, now);
            var after := w.(journal := w.journal + [r], phase := Stored(w.phase.q, v, false));
            RecordOk(after, r) && PhaseOk(after)
  {
    var r := BroadcasterRecord(w.phase.q, v, now);
    assert Find(w.journal, w.phase.q.id).None? by { hide JournalOk, MessagesOk, LedgerOk, RecordOk; }
    NotSentYet(w, w.phase.q.id);
    FindAppended(w.journal, r);
    FreshRecord(w.phase.q, v, now, w.ledger, w.observed);
    hide Inv, Find, BroadcasterRecord, InFlight, Accounted;
    StoredIsOk(w.(journal := w.journal + [r], phase := Stored(w.phase.q, v, false)));
  }

  lemma FreshRecord(q: Request, v: Reservation, now: nat, ledger: seq<ChainTx>, observed: seq<Read>)
    ensures var r := BroadcasterRecord(q, v, now);
            r.intentId == q.id && InFlight(r, q, v, false) && Accounted(r, 0, 1, 1, ledger, observed)
  {
    hide Normalized, Completed, Backed;
  }

  lemma JournalInOrder(w: World)
    requires Inv(w)
    ensures JournalOk(w.journal)
  {
    hide JournalOk;
  }

  /** `UpdateKeeps` and `AppendKeeps` for a whole step. */
  lemma UpdateStepKeeps(w: World, step: Step, op: Op, now: nat, next: Phase, k: nat, s: Record, terms: Terms)
    requires OpOf(w.phase, step) == Some((op, now)) && Then(w.phase, step) == next
    requires Inv(w) && w.phase.Subject() == Some(Subject(op)) && (next.Idle? || next.Subject() == Some(Subject(op)))
    requires Find(w.journal, Subject(op)) == Some(k) && s.intentId == Subject(op)
    requires Apply(w.journal, op, now) == Ok(w.journal[k := s])
    requires var after := w.(journal := w.journal[k := s], phase := next); PhaseOk(after) && RecordOk(after, s)
    ensures Keeps(w, step, terms)
  {
    hide Apply, Inv, PhaseOk, RecordOk, Subject, OpOf, Then, Find, Next;
    UpdateKeeps(w, op, now, next, k, s);
    NextWrites(w, step, op, now, next, terms);
  }

  lemma AppendStepKeeps(w: World, step: Step, op: Op, now: nat, next: Phase, r: Record, terms: Terms)
    requires OpOf(w.phase, step) == Some((op, now)) && Then(w.phase, step) == next
    requires Inv(w) && w.phase.Subject() == Some(Subject(op)) && next.Subject() == Some(Subject(op))
    requires Find(w.journal, Subject(op)).None?
    requires Apply(w.journal, op, now) == Ok(w.journal + [r])
    requires var after := w.(journal := w.journal + [r], phase := next); PhaseOk(after) && RecordOk(after, r)
    ensures Keeps(w, step, terms)
  {
    hide Apply, Inv, PhaseOk, RecordOk, Subject, OpOf, Then, Find, Next;
    AppendKeeps(w, op, now, next, r);
    NextWrites(w, step, op, now, next, terms);
  }

  lemma FirstOp(phase: Phase, op: Op, now: nat)
    requires phase.Prepared? && !phase.retry && op == DoReserveBroadcaster(phase.q, phase.v)
    ensures OpOf(phase, StoreReservation(now)) == Some((op, now))
    ensures Then(phase, StoreReservation(now)) == Stored(phase.q, phase.v, false)
    ensures Subject(op) == phase.q.id && phase.Subject() == Some(phase.q.id)
            && Stored(phase.q, phase.v, false).Subject() == Some(phase.q.id)
  {
  }

  lemma FirstApplied(j: Journal, q: Request, v: Reservation, now: nat)
    requires Apply(j, DoReserveBroadcaster(q, v), now).Ok?
    ensures Apply(j, DoReserveBroadcaster(q, v), now) == Ok(j + [BroadcasterRecord(q, v, now)])
  {
    hide ValidJournal, Readable, Find, Conflicts, BroadcasterRecord;
  }

  lemma StoreFirstKeeps(w: World, now: nat, terms: Terms)
    requires Inv(w) && w.phase.Prepared? && !w.phase.retry
    ensures Keeps(w, StoreReservation(now), terms)
  {
    hide *;
    var q, v := w.phase.q, w.phase.v;
    var op, next := DoReserveBroadcaster(q, v), Stored(q, v, false);
    FirstOp(w.phase, op, now);
    if Apply(w.journal, op, now).Ok? {
      FirstApplied(w.journal, q, v, now);
      FirstRecordOk(w, v, now);
      AppendStepKeeps(w, StoreReservation(now), op, now, next, BroadcasterRecord(q, v, now), terms);
    } else {
      FailureKeeps(w, StoreReservation(now), terms);
    }
  }

  lemma RetryRecordOk(w: World, r: Record, s: Record, v: Reservation, next: Phase)
    requires RecordOk(w, r) && r.mode == BROADCASTER && Unresolved(r) && v.broadcaster !in Tried(r)
    requires exists a ::
               s == r.(retries := Some(r.Retries() + [a]), updatedAt := s.updatedAt) && a.broadcaster == v.broadcaster
    requires w.phase.Prepared? && next.Stored? && next.q.id == r.intentId
    ensures RecordOk(w.(phase := next), s)
  {
    var a :| s == r.(retries := Some(r.Retries() + [a]), updatedAt := s.updatedAt) && a.broadcaster == v.broadcaster;
    assert s.Retries() == r.Retries() + [a];
    forall b <- r.Retries() ensures b.broadcaster != v.broadcaster { assert b.broadcaster in Tried(r); }
    assert TriedOnce(s);
  }

  /** The record with one more attempt reserved. */
  function Retried(r: Record, v: Reservation, now: nat): Record {
    r.(retries := Some(r.Retries() + [NewAttempt(v, now)]), updatedAt := now)
  }

  lemma RetryFacts(w: World)
    requires Inv(w) && w.phase.Prepared? && w.phase.retry
    ensures var at := Find(w.journal, w.phase.q.id);
            && at.Some?
            && var r := w.journal[at.value];
               && r.mode == BROADCASTER && Unresolved(r) && RecordOk(w, r) && w.phase.v.broadcaster !in Tried(r)
               && r.fingerprint == RequestFingerprint(w.phase.q.id, w.phase.q.signature)
               && r.payer == Some(w.phase.v.payer)
  {
    hide JournalOk, MessagesOk, LedgerOk;
    assert w.journal[Find(w.journal, w.phase.q.id).value] in w.journal;
    hide RecordOk;
  }

  lemma RetryShape(j: Journal, q: Request, v: Reservation, now: nat)
    requires ReserveRetry(j, q, v, now).Ok?
    ensures var at := Find(j, q.id);
            && at.Some? && ReserveRetry(j, q, v, now) == Ok(j[at.value := Retried(j[at.value], v, now)])
            && multiset(j[at.value].Nullifiers()) == multiset(v.nullifiers)
  {
    var r := j[Find(j, q.id).value];
    SameNullifierSetIff(r.Nullifiers(), v.nullifiers);
    hide ValidJournal, SameNullifierSet, Find;
  }

  lemma RetryApplied(j: Journal, q: Request, v: Reservation, now: nat)
    requires Apply(j, DoReserveRetry(q, v), now).Ok?
    ensures var at := Find(j, q.id);
            && at.Some? && Apply(j, DoReserveRetry(q, v), now) == Ok(j[at.value := Retried(j[at.value], v, now)])
            && multiset(j[at.value].Nullifiers()) == multiset(v.nullifiers)
            && Retried(j[at.value], v, now).intentId == q.id
  {
    hide ReserveRetry, Readable, Find;
    AppliedIsPerformed(j, DoReserveRetry(q, v), now);
    RetryShape(j, q, v, now);
  }

  lemma RetriedInOrder(w: World, k: nat, now: nat)
    requires Inv(w) && w.phase.Prepared? && w.phase.retry && Find(w.journal, w.phase.q.id) == Some(k)
    requires multiset(w.journal[k].Nullifiers()) == multiset(w.phase.v.nullifiers)
    ensures var s, next := Retried(w.journal[k], w.phase.v, now), Stored(w.phase.q, w.phase.v, true);
            var after := w.(journal := w.journal[k := s], phase := next);
            RecordOk(after, s) && PhaseOk(after)
  {
    var q, v, r := w.phase.q, w.phase.v, w.journal[k];
    var s, next := Retried(r, v, now), Stored(q, v, true);
    RetryFacts(w);
    NewBroadcaster(w);
    assert JournalOk(w.journal);
    hide Inv, JournalOk, PhaseOk;
    FindUpdated(w.journal, k, s);
    RetryRecordOk(w, r, s, v, next);
    assert s.Retries()[|r.Retries()|] == NewAttempt(v, now);
    hide RecordOk, Find, Tried;
    StoredIsOk(w.(journal := w.journal[k := s], phase := next));
  }

  lemma NewBroadcaster(w: World)
    requires Inv(w) && w.phase.Prepared? && w.phase.retry
    ensures forall m <- w.sent :: m.ToBroadcaster? && m.intent == w.phase.q.id ==>
            m.broadcaster != w.phase.v.broadcaster
  {
    hide JournalOk, LedgerOk, RecordOk;
    forall m <- w.sent | m.ToBroadcaster? && m.intent == w.phase.q.id ensures m.broadcaster != w.phase.v.broadcaster {
      assert Covered(w.journal, m);
    }
  }

  lemma StoreRetryKeeps(w: World, now: nat, terms: Terms)
    requires Inv(w) && w.phase.Prepared? && w.phase.retry
    ensures Keeps(w, StoreReservation(now), terms)
  {
    hide *;
    var q, v := w.phase.q, w.phase.v;
    var op, next := DoReserveRetry(q, v), Stored(q, v, true);
    RetryOp(w.phase, op, now);
    if Apply(w.journal, op, now).Ok? {
      RetryApplied(w.journal, q, v, now);
      var k := Find(w.journal, q.id).value;
      var s := Retried(w.journal[k], v, now);
      RetriedInOrder(w, k, now);
      UpdateStepKeeps(w, StoreReservation(now), op, now, next, k, s, terms);
    } else {
      FailureKeeps(w, StoreReservation(now), terms);
    }
  }

  lemma RetryOp(phase: Phase, op: Op, now: nat)
    requires phase.Prepared? && phase.retry && op == DoReserveRetry(phase.q, phase.v)
    ensures OpOf(phase, StoreReservation(now)) == Some((op, now))
    ensures Then(phase, StoreReservation(now)) == Stored(phase.q, phase.v, true)
    ensures Subject(op) == phase.q.id && phase.Subject() == Some(phase.q.id)
            && Stored(phase.q, phase.v, true).Subject() == Some(phase.q.id)
  {
  }

  /** Settling an attempt does not change who was tried. */
  lemma SettleKeepsTried(r: Record, s: Record, k: nat, outcome: AttemptOutcome, now: nat)
    requires k < |r.Retries()| && s.retries == Some(Settle(r.Retries(), k, outcome, now))
             && s.broadcaster == r.broadcaster
    ensures |s.Retries()| == |r.Retries()|
    ensures TriedOnce(r) ==> TriedOnce(s)
  {
    forall i | 0 <= i < |s.Retries()| ensures s.Retries()[i].broadcaster == r.Retries()[i].broadcaster {
    }
    if TriedOnce(r) {
      forall a <- s.Retries() ensures a.broadcaster != r.broadcaster.value {
        var i :| 0 <= i < |s.Retries()| && s.Retries()[i] == a;
        assert r.Retries()[i] in r.Retries();
      }
    }
  }

  /** What an answer may do to the accounts of its record. */
  lemma AnswerAccounted(r: Record, s: Record, sends: nat, ledger: seq<ChainTx>, observed: seq<Read>)
    requires Accounted(r, sends, 0, 1, ledger, observed) && r.mode == BROADCASTER && Unresolved(r)
    requires s == r.(status := s.status, rejection := s.rejection, retries := s.retries, ambiguity := s.ambiguity,
                     reported := s.reported, updatedAt := s.updatedAt)
    requires |s.Retries()| == |r.Retries()| && TriedOnce(s) && |s.Codes()| <= |r.Codes()| + 1
    requires s.status in {SUBMITTING, REJECTED}
    requires s.status == REJECTED ==> sends == 1 && s.Codes() == [] && s.Retries() == []
    ensures Accounted(s, sends, 0, 0, ledger, observed)
  {
  }

  /** The record that an answer is stored in. */
  function Answered(r: Record, retry: bool, response: Response, now: nat): Record
    requires retry ==> r.Retries() != []
  {
    var noted :=
      match response
      case Refuses(code) => if retry then r.(updatedAt := now)
        else r.(status := REJECTED, rejection := Some(code), updatedAt := now)
      case Unclear(code) => r.(ambiguity := Some(AddCode(r.Codes(), code)), updatedAt := now)
      case Reports(hash) => r.(reported := Some(hash), updatedAt := now);
    if !retry then noted
    else
      var outcome :=
        match response
        case Refuses(code) => Rejected(code)
        case Unclear(code) => Ambiguous(code)
        case Reports(_) => REPORTED;
      noted.(retries := Some(Settle(r.Retries(), |r.Retries()| - 1, outcome, now)))
  }

  lemma FirstAnswer(j: Journal, k: nat, op: Op, v: Reservation, q: Request, response: Response, now: nat)
    requires Find(j, q.id) == Some(k) && InFlight(j[k], q, v, false)
    requires OpOf(Sent(q, v, false), Reply(response, now)) == Some((op, now)) && Perform(j, op, now).Ok?
    ensures Perform(j, op, now) == Ok(j[k := Answered(j[k], false, response, now)])
  {
    hide Find, ValidJournal, AddCode;
    assert LastReserved([], None) == None;
  }

  lemma RetryAnswer(j: Journal, k: nat, op: Op, v: Reservation, q: Request, response: Response, now: nat)
    requires Find(j, q.id) == Some(k) && InFlight(j[k], q, v, true)
    requires OpOf(Sent(q, v, true), Reply(response, now)) == Some((op, now)) && Perform(j, op, now).Ok?
    ensures Perform(j, op, now) == Ok(j[k := Answered(j[k], true, response, now)])
  {
    var attempts := j[k].Retries();
    assert LastReserved(attempts, Some(v.quote)) == Some(|attempts| - 1);
    assert LastReserved(attempts, None) == Some(|attempts| - 1);
    hide Find, ValidJournal, AddCode, LastReserved, Settle;
  }

  /** Each answer is stored in the attempt it answers. */
  lemma AnswerStored(j: Journal, q: Request, v: Reservation, retry: bool, response: Response, now: nat)
    requires Find(j, q.id).Some? && InFlight(j[Find(j, q.id).value], q, v, retry)
    requires Apply(j, OpOf(Sent(q, v, retry), Reply(response, now)).value.0, now).Ok?
    ensures var k := Find(j, q.id).value;
            Apply(j, OpOf(Sent(q, v, retry), Reply(response, now)).value.0, now).value
            == j[k := Answered(j[k], retry, response, now)]
  {
    var op, k := OpOf(Sent(q, v, retry), Reply(response, now)).value.0, Find(j, q.id).value;
    assert OpOf(Sent(q, v, retry), Reply(response, now)) == Some((op, now));
    hide Apply, Perform, OpOf, Find, InFlight, Answered;
    AppliedIsPerformed(j, op, now);
    if retry { RetryAnswer(j, k, op, v, q, response, now); } else { FirstAnswer(j, k, op, v, q, response, now); }
  }

  lemma AnsweredAccounted(
    r: Record, q: Request, v: Reservation, retry: bool, response: Response, now: nat, sends: nat,
    ledger: seq<ChainTx>, observed: seq<Read>)
    requires InFlight(r, q, v, retry) && Accounted(r, sends, 0, 1, ledger, observed) && (!retry ==> sends == 1)
    ensures var s := Answered(r, retry, response, now);
            && Accounted(s, sends, 0, 0, ledger, observed)
            && (response.Reports? ==> Open(s) && s.Nullifiers() == r.Nullifiers())
            && s.intentId == r.intentId
  {
    var s := Answered(r, retry, response, now);
    assert TriedOnce(r);
    if retry {
      var last := |r.Retries()| - 1;
      SettleKeepsTried(r, s, last, s.Retries()[last].outcome, now);
    }
    hide Completed, Backed, TriedOnce;
    if !retry { TriedUnchanged(r, s); }
    AnswerAccounted(r, s, sends, ledger, observed);
  }

  lemma TriedUnchanged(r: Record, s: Record)
    requires s.Retries() == r.Retries() && s.broadcaster == r.broadcaster
    ensures TriedOnce(r) == TriedOnce(s)
  {
  }

  lemma RecoveringIsOk(w: World)
    requires w.phase.Recovering? && Find(w.journal, w.phase.intent).Some?
    requires var r := w.journal[Find(w.journal, w.phase.intent).value];
             Open(r) && multiset(r.Nullifiers()) == multiset(w.phase.nullifiers)
    ensures PhaseOk(w)
  {
  }

  lemma SentFacts(w: World)
    requires Inv(w) && w.phase.Sent?
    ensures var q, at := w.phase.q, Find(w.journal, w.phase.q.id);
            && at.Some?
            && var r := w.journal[at.value];
               && InFlight(r, q, w.phase.v, w.phase.retry)
               && Accounted(r, Sends(w.sent, q.id), 0, 1, w.ledger, w.observed)
               && (!w.phase.retry ==> Sends(w.sent, q.id) == 1)
  {
    hide JournalOk, MessagesOk, LedgerOk;
    var r := w.journal[Find(w.journal, w.phase.q.id).value];
    assert r in w.journal && RecordOk(w, r);
  }

  /** The record and the command after an answer. */
  lemma AnswerInOrder(w: World, response: Response, now: nat)
    requires Inv(w) && w.phase.Sent?
    ensures Find(w.journal, w.phase.q.id).Some?
            && (w.phase.retry ==> w.journal[Find(w.journal, w.phase.q.id).value].Retries() != [])
    ensures var k := Find(w.journal, w.phase.q.id).value;
            var s := Answered(w.journal[k], w.phase.retry, response, now);
            var after := w.(journal := w.journal[k := s], phase := Then(w.phase, Reply(response, now)));
            s.intentId == w.phase.q.id && RecordOk(after, s) && PhaseOk(after)
  {
    hide *;
    var q, v, retry := w.phase.q, w.phase.v, w.phase.retry;
    SentFacts(w);
    JournalInOrder(w);
    var k := Find(w.journal, q.id).value;
    var r := w.journal[k];
    InFlightFacts(r, q, v, retry);
    FoundIntent(w.journal, q.id);
    var s := Answered(r, retry, response, now);
    AnsweredAccounted(r, q, v, retry, response, now, Sends(w.sent, q.id), w.ledger, w.observed);
    var after := w.(journal := w.journal[k := s], phase := Then(w.phase, Reply(response, now)));
    FindUpdated(w.journal, k, s);
    AfterAnswer(w.phase, response, now);
    AnsweredRecordOk(after, s, q.id);
    if response.Reports? { RecoveringIsOk(after); } else { IdleIsOk(after); }
  }

  lemma InFlightFacts(r: Record, q: Request, v: Reservation, retry: bool)
    requires InFlight(r, q, v, retry)
    ensures multiset(r.Nullifiers()) == multiset(v.nullifiers) && (retry ==> r.Retries() != [])
  {
  }

  lemma FoundIntent(j: Journal, id: IntentId)
    requires Find(j, id).Some?
    ensures Find(j, id).value < |j| && j[Find(j, id).value].intentId == id
  {
  }

  lemma AfterAnswer(phase: Phase, response: Response, now: nat)
    requires phase.Sent?
    ensures Then(phase, Reply(response, now))
         == if response.Reports? then Recovering(phase.q.id, phase.v.nullifiers) else Idle
  {
  }

  lemma AnsweredRecordOk(w: World, s: Record, id: IntentId)
    requires (w.phase.Idle? || w.phase.Recovering?) && s.intentId == id
    requires Accounted(s, Sends(w.sent, id), 0, 0, w.ledger, w.observed)
    ensures RecordOk(w, s)
  {
    hide Accounted;
  }

  /** The answer to a message updates the record the message belongs to. */
  lemma ReplyKeeps(w: World, response: Response, now: nat, terms: Terms)
    requires Inv(w) && w.phase.Sent?
    ensures Keeps(w, Reply(response, now), terms)
  {
    hide *;
    var q, v, retry := w.phase.q, w.phase.v, w.phase.retry;
    var op, next := AnswerOp(w.phase, response, now);
    SentFacts(w);
    if Apply(w.journal, op, now).Ok? {
      var k := Find(w.journal, q.id).value;
      AnswerStored(w.journal, q, v, retry, response, now);
      AnswerInOrder(w, response, now);
      UpdateStepKeeps(w, Reply(response, now), op, now, next, k, Answered(w.journal[k], retry, response, now), terms);
    } else {
      FailureKeeps(w, Reply(response, now), terms);
    }
  }

  lemma AnswerOp(phase: Phase, response: Response, now: nat) returns (op: Op, next: Phase)
    requires phase.Sent?
    ensures OpOf(phase, Reply(response, now)) == Some((op, now)) && Then(phase, Reply(response, now)) == next
    ensures Subject(op) == phase.q.id && phase.Subject() == Some(phase.q.id)
    ensures next.Idle? || next.Subject() == Some(phase.q.id)
  {
    op, next := OpOf(phase, Reply(response, now)).value.0, Then(phase, Reply(response, now));
  }

  /** Recording a canonical hash or a receipt outcome for a record whose accounts were in order. */
  lemma ProgressAccounted(r: Record, s: Record, sends: nat, ledger: seq<ChainTx>, observed: seq<Read>)
    requires Accounted(r, sends, 0, 0, ledger, observed) && Open(r)
    requires s == r.(status := s.status, hash := s.hash, blockNumber := s.blockNumber, updatedAt := s.updatedAt)
    requires s.status != REJECTED && s.hash.Some? && Completed(ledger, r.Nullifiers(), s.hash.value)
    requires s.status in {MINED, REVERTED} ==> exists read <- observed :: Backed(read, s)
    ensures Accounted(s, sends, 0, 0, ledger, observed)
  {
    hide Backed, Completed;
    assert s.Retries() == r.Retries() && s.Codes() == r.Codes() && s.Nullifiers() == r.Nullifiers();
    assert TriedOnce(s) by { assert TriedOnce(r); }
  }

  /** The record with its canonical hash. */
  function Hashed(r: Record, hash: Hash, now: nat): Record {
    if r.status == SUBMITTED then r else r.(status := SUBMITTED, hash := Some(hash), updatedAt := now)
  }

  lemma FoundFacts(w: World)
    requires Inv(w) && w.phase.Found?
    ensures var at := Find(w.journal, w.phase.intent);
            && at.Some?
            && var r := w.journal[at.value];
               && Open(r) && Completed(w.ledger, r.Nullifiers(), w.phase.hash)
               && Accounted(r, Sends(w.sent, r.intentId), 0, 0, w.ledger, w.observed)
               && (r.status == SUBMITTED ==> r.hash.Some?)
  {
    hide MessagesOk, LedgerOk;
    var r := w.journal[Find(w.journal, w.phase.intent).value];
    assert r in w.journal && RecordOk(w, r) && ValidRecord(r);
    hide JournalOk, Accounted, Completed;
  }

  lemma HashShape(j: Journal, id: IntentId, hash: Hash, now: nat)
    requires MarkSubmitted(j, id, hash, now).Ok?
    ensures var at := Find(j, id);
            && at.Some? && MarkSubmitted(j, id, hash, now) == Ok(j[at.value := Hashed(j[at.value], hash, now)])
            && (j[at.value].hash.Some? ==> j[at.value].hash.value == hash)
  {
    hide ValidJournal, Find;
    var k := Find(j, id).value;
    assert j[k := j[k]] == j;
  }

  lemma MarkedIsOk(w: World)
    requires w.phase.Marked? && Find(w.journal, w.phase.intent).Some?
    requires Submitted(w.journal[Find(w.journal, w.phase.intent).value], BROADCASTER, w.phase.hash)
    ensures PhaseOk(w)
  {
  }

  lemma HashedInOrder(w: World, k: nat, now: nat)
    requires Inv(w) && w.phase.Found? && Find(w.journal, w.phase.intent) == Some(k)
    requires w.journal[k].hash.Some? ==> w.journal[k].hash.value == w.phase.hash
    ensures var s, next := Hashed(w.journal[k], w.phase.hash, now), Marked(w.phase.intent, w.phase.hash);
            var after := w.(journal := w.journal[k := s], phase := next);
            RecordOk(after, s) && PhaseOk(after)
  {
    var r := w.journal[k];
    var s, next := Hashed(r, w.phase.hash, now), Marked(w.phase.intent, w.phase.hash);
    FoundFacts(w);
    assert JournalOk(w.journal);
    hide Inv, JournalOk, PhaseOk, Completed, Backed, Accounted;
    FindUpdated(w.journal, k, s);
    ProgressAccounted(r, s, Sends(w.sent, r.intentId), w.ledger, w.observed);
    hide Find;
    MarkedIsOk(w.(journal := w.journal[k := s], phase := next));
  }

  lemma HashOp(phase: Phase, op: Op, now: nat)
    requires phase.Found? && op == DoMarkSubmitted(phase.intent, phase.hash)
    ensures OpOf(phase, StoreHash(now)) == Some((op, now))
            && Then(phase, StoreHash(now)) == Marked(phase.intent, phase.hash)
    ensures Subject(op) == phase.intent
    ensures phase.Subject() == Some(phase.intent) == Marked(phase.intent, phase.hash).Subject()
  {
  }

  lemma HashApplied(j: Journal, id: IntentId, hash: Hash, now: nat)
    requires Apply(j, DoMarkSubmitted(id, hash), now).Ok?
    ensures var at := Find(j, id);
            && at.Some? && Apply(j, DoMarkSubmitted(id, hash), now) == Ok(j[at.value := Hashed(j[at.value], hash, now)])
            && (j[at.value].hash.Some? ==> j[at.value].hash.value == hash)
            && Hashed(j[at.value], hash, now).intentId == id
  {
    hide MarkSubmitted, Readable, Find;
    AppliedIsPerformed(j, DoMarkSubmitted(id, hash), now);
    HashShape(j, id, hash, now);
  }

  lemma StoreHashKeeps(w: World, now: nat, terms: Terms)
    requires Inv(w) && w.phase.Found?
    ensures Keeps(w, StoreHash(now), terms)
  {
    hide *;
    var id, hash := w.phase.intent, w.phase.hash;
    var op := DoMarkSubmitted(id, hash);
    HashOp(w.phase, op, now);
    if Apply(w.journal, op, now).Ok? {
      HashApplied(w.journal, id, hash, now);
      var k := Find(w.journal, id).value;
      HashedInOrder(w, k, now);
      UpdateStepKeeps(w, StoreHash(now), op, now, Marked(id, hash), k, Hashed(w.journal[k], hash, now), terms);
    } else {
      FailureKeeps(w, StoreHash(now), terms);
    }
  }

  /** The record with its outcome. */
  function Mined(r: Record, receipt: Rpc.Identity, now: nat): Record {
    r.(status := if receipt.succeeded then MINED else REVERTED,
       blockNumber := Some(receipt.blockNumber), updatedAt := now)
  }

  /** What the command knows when it is about to store an outcome. */
  lemma WitnessFacts(w: World) returns (read: Read)
    requires Inv(w) && w.phase.Witnessed?
    ensures Find(w.journal, w.phase.intent).Some?
    ensures var r := w.journal[Find(w.journal, w.phase.intent).value];
            && Submitted(r, BROADCASTER, w.phase.hash)
            && Accounted(r, Sends(w.sent, r.intentId), 0, 0, w.ledger, w.observed)
            && Completed(w.ledger, r.Nullifiers(), w.phase.hash)
    ensures read in w.observed && read.hash == w.phase.hash
    ensures Rpc.SelectReceipt(w.phase.hash, read.responses) == Some(w.phase.receipt)
  {
    hide JournalOk, LedgerOk, MessagesOk;
    var r := w.journal[Find(w.journal, w.phase.intent).value];
    assert RecordOk(w, r) by { assert r in w.journal; }
    read :| read in w.observed && read.hash == w.phase.hash
        && Rpc.SelectReceipt(w.phase.hash, read.responses) == Some(w.phase.receipt);
  }

  lemma StatusAtWitness(w: World)
    requires Inv(w) && w.phase.Witnessed?
    ensures Find(w.journal, w.phase.intent).Some?
            && w.journal[Find(w.journal, w.phase.intent).value].status == SUBMITTED
  {
    var _ := WitnessFacts(w);
  }

  lemma ReceiptShape(j: Journal, id: IntentId, receipt: Rpc.Identity, now: nat)
    requires Find(j, id).Some? && j[Find(j, id).value].status == SUBMITTED
    requires MarkMined(j, id, receipt.blockNumber, receipt.succeeded, now).Ok?
    ensures var k := Find(j, id).value;
            && MarkMined(j, id, receipt.blockNumber, receipt.succeeded, now) == Ok(j[k := Mined(j[k], receipt, now)])
            && j[k].intentId == id && Mined(j[k], receipt, now).intentId == id
  {
    hide ValidJournal, Find;
  }

  lemma MinedInOrder(w: World, k: nat, now: nat)
    requires Inv(w) && w.phase.Witnessed? && Find(w.journal, w.phase.intent) == Some(k)
    ensures w.journal[k].status == SUBMITTED
    ensures var s := Mined(w.journal[k], w.phase.receipt, now);
            var after := w.(journal := w.journal[k := s], phase := Idle);
            RecordOk(after, s) && PhaseOk(after)
  {
    var r := w.journal[k];
    var s := Mined(r, w.phase.receipt, now);
    var read := WitnessFacts(w);
    hide Inv, PhaseOk, Completed, Accounted, Find;
    assert Backed(read, s);
    hide Backed;
    ProgressAccounted(r, s, Sends(w.sent, r.intentId), w.ledger, w.observed);
    IdleIsOk(w.(journal := w.journal[k := s], phase := Idle));
  }

  lemma StoreReceiptKeeps(w: World, now: nat, terms: Terms)
    requires Inv(w) && w.phase.Witnessed?
    ensures Keeps(w, StoreReceipt(now), terms)
  {
    hide *;
    var id, receipt := w.phase.intent, w.phase.receipt;
    var op := DoMarkMined(id, receipt.blockNumber, receipt.succeeded);
    ReceiptOp(w.phase, op, now);
    if Apply(w.journal, op, now).Ok? {
      AppliedIsPerformed(w.journal, op, now);
      StatusAtWitness(w);
      var k := Find(w.journal, id).value;
      ReceiptShape(w.journal, id, receipt, now);
      MinedInOrder(w, k, now);
      UpdateStepKeeps(w, StoreReceipt(now), op, now, Idle, k, Mined(w.journal[k], receipt, now), terms);
    } else {
      FailureKeeps(w, StoreReceipt(now), terms);
    }
  }


  lemma ReceiptOp(phase: Phase, op: Op, now: nat)
    requires phase.Witnessed? && op == DoMarkMined(phase.intent, phase.receipt.blockNumber, phase.receipt.succeeded)
    ensures OpOf(phase, StoreReceipt(now)) == Some((op, now)) && Then(phase, StoreReceipt(now)) == Idle
    ensures phase.Subject() == Some(phase.intent) && Subject(op) == phase.intent
    ensures forall j ::
              Perform(j, op, now) == MarkMined(j, phase.intent, phase.receipt.blockNumber, phase.receipt.succeeded, now)
  {
    hide MarkMined;
  }

  lemma IdleIsOk(w: World)
    requires w.phase.Idle?
    ensures PhaseOk(w)
  {
  }

  lemma SelfStoreOp(phase: Phase, step: Step, op: Op)
    requires phase.SelfChecked? && step.StoreSelfSigned? && op == DoReserve(phase.q, step.signer, step.hash, step.nonce)
    ensures OpOf(phase, step) == Some((op, step.now)) && Then(phase, step) == SelfStored(phase.q, step.hash)
    ensures Subject(op) == phase.q.id && phase.Subject() == Some(phase.q.id) == SelfStored(phase.q, step.hash).Subject()
  {
  }

  lemma SelfStoreApplied(j: Journal, q: Request, signer: EvmAddress, hash: Hash, nonce: nat, now: nat)
    requires Apply(j, DoReserve(q, signer, hash, nonce), now).Ok?
    ensures Find(j, q.id).None?
    ensures Apply(j, DoReserve(q, signer, hash, nonce), now) == Ok(j + [SelfSignedRecord(q, signer, hash, nonce, now)])
  {
    hide ValidJournal, Readable, Find, SelfSignedRecord;
  }

  lemma SelfStoredInOrder(w: World, r: Record, hash: Hash)
    requires w.phase.SelfChecked? && Find(w.journal, w.phase.q.id).None? && r.intentId == w.phase.q.id
             && Signed(r, hash)
    requires r.nullifiers.None? && r.retries.None?
    ensures var after := w.(journal := w.journal + [r], phase := SelfStored(w.phase.q, hash));
            RecordOk(after, r) && PhaseOk(after)
  {
    FindAppended(w.journal, r);
    hide Find;
  }

  lemma StoreSelfSignedKeeps(w: World, step: Step, terms: Terms)
    requires Inv(w) && w.phase.SelfChecked? && step.StoreSelfSigned?
    ensures Keeps(w, step, terms)
  {
    var r := SelfSignedRecord(w.phase.q, step.signer, step.hash, step.nonce, step.now);
    assert r.intentId == w.phase.q.id && Signed(r, step.hash) && r.nullifiers.None? && r.retries.None? by { hide Inv; }
    hide *;
    var q, now := w.phase.q, step.now;
    var op := DoReserve(q, step.signer, step.hash, step.nonce);
    SelfStoreOp(w.phase, step, op);
    if Apply(w.journal, op, now).Ok? {
      SelfStoreApplied(w.journal, q, step.signer, step.hash, step.nonce, now);
      SelfStoredInOrder(w, r, step.hash);
      AppendStepKeeps(w, step, op, now, SelfStored(q, step.hash), r, terms);
    } else {
      FailureKeeps(w, step, terms);
    }
  }

  lemma SelfMarkedIsOk(w: World)
    requires w.phase.SelfMarked? && Find(w.journal, w.phase.q.id).Some?
    requires Submitted(w.journal[Find(w.journal, w.phase.q.id).value], SELF_SIGNED, w.phase.hash)
    ensures PhaseOk(w)
  {
  }

  /** The record of a self-signed transfer carries no accounts. */
  lemma SelfSignedUpdateKeeps(w: World, step: Step, op: Op, now: nat, next: Phase, k: nat, s: Record, terms: Terms)
    requires OpOf(w.phase, step) == Some((op, now)) && Then(w.phase, step) == next
    requires Inv(w) && w.phase.Subject() == Some(Subject(op))
    requires Find(w.journal, Subject(op)) == Some(k) && s.intentId == Subject(op) && s.mode == SELF_SIGNED
    requires Apply(w.journal, op, now) == Ok(w.journal[k := s])
    requires next.Idle? || (next.SelfMarked? && next.q.id == Subject(op) && Submitted(s, SELF_SIGNED, next.hash))
    ensures Keeps(w, step, terms)
  {
    hide *;
    var after := w.(journal := w.journal[k := s], phase := next);
    JournalInOrder(w);
    FindUpdated(w.journal, k, s);
    SelfSignedIsOk(after, s);
    if next.SelfMarked? { SelfMarkedIsOk(after); } else { IdleIsOk(after); }
    if next.SelfMarked? { SubjectOfMarked(next); }
    UpdateStepKeeps(w, step, op, now, next, k, s, terms);
  }

  lemma SelfSignedIsOk(w: World, s: Record)
    requires s.mode == SELF_SIGNED && (w.phase.Idle? || w.phase.SelfMarked?)
    ensures RecordOk(w, s)
  {
  }

  lemma SubjectOfMarked(phase: Phase)
    requires phase.SelfMarked?
    ensures phase.Subject() == Some(phase.q.id)
  {
  }

  lemma SelfHashOp(phase: Phase, op: Op, now: nat)
    requires phase.SelfSent? && op == DoMarkSubmitted(phase.q.id, phase.hash)
    ensures OpOf(phase, StoreSelfSignedHash(now)) == Some((op, now))
    ensures Then(phase, StoreSelfSignedHash(now)) == SelfMarked(phase.q, phase.hash)
    ensures Subject(op) == phase.q.id && phase.Subject() == Some(phase.q.id)
  {
  }

  lemma SignedWhenSent(w: World)
    requires Inv(w) && w.phase.SelfSent?
    ensures Find(w.journal, w.phase.q.id).Some?
    ensures var r := w.journal[Find(w.journal, w.phase.q.id).value];
            r.mode == SELF_SIGNED && r.status == SUBMITTING && r.hash == Some(w.phase.hash)
  {
    hide JournalOk, MessagesOk, LedgerOk, RecordOk, Find;
  }

  lemma HashedSigned(r: Record, hash: Hash, now: nat)
    requires r.mode == SELF_SIGNED && r.status == SUBMITTING
    ensures Hashed(r, hash, now).mode == SELF_SIGNED && Submitted(Hashed(r, hash, now), SELF_SIGNED, hash)
  {
  }

  lemma SelfSignedHashKeeps(w: World, now: nat, terms: Terms)
    requires Inv(w) && w.phase.SelfSent?
    ensures Keeps(w, StoreSelfSignedHash(now), terms)
  {
    hide *;
    var q, hash := w.phase.q, w.phase.hash;
    var op := DoMarkSubmitted(q.id, hash);
    SelfHashOp(w.phase, op, now);
    if Apply(w.journal, op, now).Ok? {
      HashApplied(w.journal, q.id, hash, now);
      SignedWhenSent(w);
      var k := Find(w.journal, q.id).value;
      HashedSigned(w.journal[k], hash, now);
      SelfSignedUpdateKeeps(w, StoreSelfSignedHash(now), op, now, SelfMarked(q, hash), k,
          Hashed(w.journal[k], hash, now), terms);
    } else {
      FailureKeeps(w, StoreSelfSignedHash(now), terms);
    }
  }

  lemma SelfReceiptOp(phase: Phase, step: Step, op: Op)
    requires phase.SelfMarked? && step.StoreSelfSignedReceipt?
             && op == DoMarkMined(phase.q.id, step.blockNumber, step.succeeded)
    ensures OpOf(phase, step) == Some((op, step.now)) && Then(phase, step) == Idle
    ensures Subject(op) == phase.q.id && phase.Subject() == Some(phase.q.id)
  {
  }

  lemma SubmittedWhenMarked(w: World)
    requires Inv(w) && w.phase.SelfMarked?
    ensures Find(w.journal, w.phase.q.id).Some?
    ensures var r := w.journal[Find(w.journal, w.phase.q.id).value]; r.mode == SELF_SIGNED && r.status == SUBMITTED
  {
    hide JournalOk, MessagesOk, LedgerOk, RecordOk, Find;
  }

  lemma MinedApplied(j: Journal, id: IntentId, blockNumber: nat, succeeded: bool, now: nat)
    requires Apply(j, DoMarkMined(id, blockNumber, succeeded), now).Ok?
    requires Find(j, id).Some? && j[Find(j, id).value].status == SUBMITTED
    ensures var k := Find(j, id).value;
            var s := j[k].(status := if succeeded then MINED else REVERTED,
                           blockNumber := Some(blockNumber), updatedAt := now);
            Apply(j, DoMarkMined(id, blockNumber, succeeded), now) == Ok(j[k := s]) && s.intentId == id
  {
    hide ValidJournal, Readable, Find;
  }

  lemma SelfSignedReceiptKeeps(w: World, step: Step, terms: Terms)
    requires Inv(w) && w.phase.SelfMarked? && step.StoreSelfSignedReceipt?
    ensures Keeps(w, step, terms)
  {
    hide *;
    var id, now := w.phase.q.id, step.now;
    var op := DoMarkMined(id, step.blockNumber, step.succeeded);
    SelfReceiptOp(w.phase, step, op);
    if Apply(w.journal, op, now).Ok? {
      SubmittedWhenMarked(w);
      var k := Find(w.journal, id).value;
      MinedApplied(w.journal, id, step.blockNumber, step.succeeded, now);
      var s := w.journal[k].(status := if step.succeeded then MINED else REVERTED,
                             blockNumber := Some(step.blockNumber), updatedAt := now);
      SelfSignedUpdateKeeps(w, step, op, now, Idle, k, s, terms);
    } else {
      FailureKeeps(w, step, terms);
    }
  }

  lemma WriteStepKeeps(w: World, step: Step, terms: Terms)
    requires Inv(w) && OpOf(w.phase, step).Some?
    ensures Keeps(w, step, terms)
  {
    hide Inv, Keeps;
    match w.phase
    case Prepared(_, _, retry) =>
      if retry { StoreRetryKeeps(w, step.now, terms); } else { StoreFirstKeeps(w, step.now, terms); }
    case Sent(_, _, _) => ReplyKeeps(w, step.response, step.now, terms);
    case Found(_, _) => StoreHashKeeps(w, step.now, terms);
    case Witnessed(_, _, _) => StoreReceiptKeeps(w, step.now, terms);
    case SelfChecked(_) => StoreSelfSignedKeeps(w, step, terms);
    case SelfSent(_, _) => SelfSignedHashKeeps(w, step.now, terms);
    case SelfMarked(_, _) => SelfSignedReceiptKeeps(w, step, terms);
  }

  /** The invariant holds after every step, of the payer, of the chain, or a crash. */
  lemma NextKeeps(w: World, step: Step, terms: Terms)
    requires Inv(w)
    ensures Inv(Next(w, step, terms))
  {
    hide Inv, Apply, Quiet, Then, OpOf;
    if OpOf(w.phase, step).Some? {
      WriteStepKeeps(w, step, terms);
    } else {
      QuietKeeps(w, step, terms);
    }
  }

  lemma {:induction false} RunKeeps(w: World, steps: seq<Step>, terms: Terms)
    requires Inv(w)
    ensures Inv(RunFrom(w, steps, terms))
  {
    if steps != [] {
      RunKeeps(w, steps[..|steps| - 1], terms);
      NextKeeps(RunFrom(w, steps[..|steps| - 1], terms), steps[|steps| - 1], terms);
    }
  }
}
