/** The journal's read limit seen from a payment: it does not stop the message, it stops the answer. */
module PayerLimits {
  import opened Results
  import opened JournalModel
  import opened JournalSize
  import opened JournalFacts
  import opened JournalLimits
  import opened BroadcasterSelection
  import opened PayerProtocol
  import opened PayerTheorems
  import opened PayerCommands
  import opened PayerProgress

  /** Self-signed submissions that crash once they are reserved, for the first intents. */
  function FillSteps(n: nat): seq<Step> {
    if n == 0 then []
    else FillSteps(n - 1) + [BeginSelfSigned(Request(n - 1, 0)), StoreSelfSigned(0, 0, 0, 0), Crash]
  }

  function FilledWorld(n: nat): World { World(Filled(n), Idle, [], [], []) }

  lemma StoresSelfSigned(w: World, q: Request, after: Journal, terms: Terms)
    requires w.phase == SelfChecked(q) && Apply(w.journal, DoReserve(q, 0, 0, 0), 0) == Ok(after)
    ensures Next(Next(w, StoreSelfSigned(0, 0, 0, 0), terms), Crash, terms) == w.(journal := after, phase := Idle)
  {
    hide Apply;
  }

  lemma FillStep(n: nat, terms: Terms)
    requires Readable(Filled(n))
    ensures RunFrom(FilledWorld(n), [BeginSelfSigned(Request(n, 0)), StoreSelfSigned(0, 0, 0, 0), Crash], terms)
         == FilledWorld(n + 1)
  {
    hide Readable, Apply, RunFrom, Next, Filled;
    FillOne(n);
    RunThree(FilledWorld(n), BeginSelfSigned(Request(n, 0)), StoreSelfSigned(0, 0, 0, 0), Crash, terms);
    NextBeginSelfSigned(FilledWorld(n), Request(n, 0), terms);
    StoresSelfSigned(FilledWorld(n).(phase := SelfChecked(Request(n, 0))), Request(n, 0), Filled(n + 1), terms);
  }

  lemma {:induction false} FillStepsRun(n: nat, terms: Terms)
    requires forall m | 0 <= m < n :: Readable(Filled(m))
    ensures Run(FillSteps(n), terms) == FilledWorld(n)
  {
    hide *;
    if n == 0 {
      NothingFilled(terms);
    } else {
      FillStepsRun(n - 1, terms);
      FillStep(n - 1, terms);
      RunFillStep(n, terms);
    }
  }

  lemma NothingFilled(terms: Terms)
    ensures Run(FillSteps(0), terms) == FilledWorld(0)
  {
  }

  lemma RunFillStep(n: nat, terms: Terms)
    requires n > 0
    ensures Run(FillSteps(n), terms)
         == RunFrom(Run(FillSteps(n - 1), terms),
                    [BeginSelfSigned(Request(n - 1, 0)), StoreSelfSigned(0, 0, 0, 0), Crash], terms)
  {
    hide RunFrom;
    RunSplit(World([], Idle, [], [], []), FillSteps(n - 1),
             [BeginSelfSigned(Request(n - 1, 0)), StoreSelfSigned(0, 0, 0, 0), Crash], terms);
  }

  /** A Broadcaster reservation takes more room than a self-signed one. */
  lemma BroadcasterRecordIsLarger(q: Request, v: Reservation, now: nat, id: IntentId)
    ensures RecordSize(BroadcasterRecord(q, v, now)) >= RecordSize(FillRecord(id))
  {
    assert CommonSize(BroadcasterRecord(q, v, now)) >= CommonSize(FillRecord(id)) by { hide OptionalSize, Normalized; }
    assert OptionalSize(FillRecord(id)) <= 200 by { hide CommonSize; }
    assert OptionalSize(BroadcasterRecord(q, v, now)) >= 200 by { hide CommonSize, ListSize, Normalized; }
  }

  lemma LargerIsUnreadable(n: nat, r: Record)
    requires !Readable(Filled(n + 1)) && RecordSize(r) >= RecordSize(FillRecord(n))
    ensures !Readable(Filled(n) + [r])
  {
    hide RecordSize;
    assert Filled(n + 1)[..n] == Filled(n) && (Filled(n) + [r])[..n] == Filled(n);
  }

  lemma FilledMayBegin(n: nat, payer: RailgunAddress, p: Preparation)
    requires Readable(Filled(n))
    ensures MayBegin(Filled(n), Request(n, 0), payer, false, p)
    ensures !Conflicts(Filled(n), n, p.nullifiers)
    ensures TriedBefore(Filled(n), Request(n, 0), payer, false) == {}
  {
    hide Readable, SameNullifierSet, Tried, Normalized;
    FillOne(n);
    forall r <- Filled(n) ensures !Active(r) || Disjoint(r.Nullifiers(), Normalized(p.nullifiers)) {}
  }

  /** The limit costs the answer and not the payment. Whatever transfer could be paid for, there is a run after which
      it is sent, under a reservation that makes the journal unreadable; then nothing that happens, the Broadcaster's
      answer and every recovery included, is recorded again, and the reservation stays as it was made. */
  lemma PaymentOutgrowsItsJournal(payer: RailgunAddress, p: Preparation, now: nat, terms: Terms)
    returns (before: seq<Step>, q: Request)
    requires QuotesStayLive(p, {}, terms) && Affordable(p)
    ensures var sending := before + [BeginSend(q, payer), Prepare(p), StoreReservation(now), Send];
            var w := Run(sending, terms);
            && w.phase.Sent? && |w.sent| == 1 && |w.journal| < MAX_RECORDS && Readable(Run(before, terms).journal)
            && w.sent[0].ToBroadcaster? && w.sent[0].intent == q.id && w.sent[0].nullifiers == p.nullifiers
            && w.journal == Run(before, terms).journal + [BroadcasterRecord(q, w.phase.v, now)]
            && forall more: seq<Step> :: Run(sending + more, terms).journal == w.journal
  {
    hide *;
    var n := LastReadable();
    before, q := FillSteps(n), Request(n, 0);
    FilledSteps(n, terms);
    FilledMayBegin(n, payer, p);
    BeginStepSends(q, payer);
    PaymentCanBeSent(before, q, payer, false, p, now, terms);
    var sending := before + [BeginSend(q, payer), Prepare(p), StoreReservation(now), Send];
    var w := Run(sending, terms);
    BroadcasterRecordIsLarger(q, w.phase.v, now, n);
    LargerIsUnreadable(n, BroadcasterRecord(q, w.phase.v, now));
    BelowCapacity(n);
    forall more: seq<Step> ensures Run(sending + more, terms).journal == w.journal {
      assert (sending + more)[..|sending|] == sending;
      TooLargeIsForever(sending + more, |sending|, terms);
    }
  }

  lemma FilledSteps(n: nat, terms: Terms)
    requires forall m | 0 <= m < n :: Readable(Filled(m))
    ensures var w := Run(FillSteps(n), terms); w.journal == Filled(n) && w.phase.Idle? && w.sent == []
  {
    hide Readable, Filled, FillSteps, Run;
    FillStepsRun(n, terms);
  }

  lemma BeginStepSends(q: Request, payer: RailgunAddress)
    ensures BeginStep(q, payer, false) == BeginSend(q, payer)
  {
  }

  lemma BelowCapacity(n: nat)
    requires n < MAX_RECORDS - 1
    ensures |Filled(n)| + 1 < MAX_RECORDS
  {
  }
}
