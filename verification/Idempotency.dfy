/** Concurrent idempotent creation, src/intents/service.ts. */
module IdempotentCreation {
  import opened Domain
  import opened Results
  import opened Database
  import opened Reconciliation

  datatype Request = Request(key: Key, externalReference: nat, amount: nat, expiresAt: nat, now: nat)
  {
    function Fp(): Fingerprint { Fingerprint(externalReference, amount, expiresAt) }
  }

  datatype Outcome = Created(intent: IntentId) | Replayed(intent: IntentId) | Refused(failure: Failure)

  /** The parts of the record that the service draws or configures. */
  datatype Draw = Draw(id: IntentId, reference: Reference, chainId: ChainId, token: Token)

  function RecordOf(q: Request, draw: Draw): Intent {
    Intent(draw.id, draw.reference, draw.chainId, draw.token, q.amount, q.expiresAt, q.now)
  }

  /** What a stored key says to a request. */
  function Recall(db: Db, q: Request): Option<Outcome> {
    if q.key !in db.idempotency then None
    else if db.idempotency[q.key].fingerprint != q.Fp() then Some(Refused(IdempotencyConflict))
    else Some(Replayed(db.idempotency[q.key].intentId))
  }

  /** The transaction at the end of `createRecord`: recheck, insert the intent, insert the key. */
  function CommitCreation(db: Db, q: Request, draw: Draw): (Db, Outcome) {
    match Recall(db, q)
    case Some(outcome) => (db, outcome)
    case None =>
      match CreateIntent(db, RecordOf(q, draw), q.now)
      case Thrown(failure) => (db, Refused(failure))
      case Ok(after) =>
        (after.(idempotency := after.idempotency[q.key := Idempotency(q.Fp(), draw.id)]), Created(draw.id))
  }

  // ---- Interleaved calls ------------------------------------------------------------------------

  /** One call of `createIdempotent`. It suspends once, while the descriptor is being signed. */
  datatype Call = Signing(request: Request) | Done(request: Request, outcome: Outcome)

  datatype Service = Service(db: Db, calls: seq<Call>)

  datatype CallStep =
    | Begin(request: Request)
    | Resume(call: nat, draw: Draw)

  predicate InputOk(q: Request) { q.amount > 0 && q.expiresAt > q.now }

  /** Runs until the call suspends: the fast check on the key, then the input checks. */
  function BeginCall(s: Service, q: Request): Service {
    var call := match Recall(s.db, q)
      case Some(outcome) => Done(q, outcome)
      case None => if InputOk(q) then Signing(q) else Done(q, Refused(IntentInput));
    s.(calls := s.calls + [call])
  }

  /** Runs from the suspension to the answer. */
  function ResumeCall(s: Service, c: nat, draw: Draw): Service
    requires c < |s.calls| && s.calls[c].Signing?
  {
    var q := s.calls[c].request;
    var (db, outcome) := CommitCreation(s.db, q, draw);
    Service(db, s.calls[c := Done(q, outcome)])
  }

  function Step(s: Service, step: CallStep): Service {
    match step
    case Begin(q) => BeginCall(s, q)
    case Resume(c, draw) =>
      if c < |s.calls| && s.calls[c].Signing? then ResumeCall(s, c, draw) else s
  }

  function Run(steps: seq<CallStep>): Service {
    if steps == [] then Service(EMPTY, [])
    else Step(Run(steps[..|steps| - 1]), steps[|steps| - 1])
  }

  predicate Answered(c: Call, key: Key, i: IntentId) {
    c.Done? && c.request.key == key && (c.outcome == Created(i) || c.outcome == Replayed(i))
  }

  predicate CreatedBy(c: Call, key: Key) {
    c.Done? && c.request.key == key && c.outcome.Created?
  }

  /** A finished call agrees with the stored key. */
  ghost predicate CallOk(db: Db, c: Call) {
    c.Done? && !c.outcome.Refused? ==>
      && c.request.key in db.idempotency
      && db.idempotency[c.request.key] == Idempotency(c.request.Fp(), c.outcome.intent)
  }

  ghost predicate CallsOk(s: Service) {
    && (forall c <- s.calls :: CallOk(s.db, c))
    && (forall key <- s.db.idempotency :: exists k | 0 <= k < |s.calls| :: CreatedBy(s.calls[k], key))
    && OneCreator(s.calls)
  }

  ghost predicate OneCreator(calls: seq<Call>) {
    forall j, k, key: Key | 0 <= j < k < |calls| && CreatedBy(calls[j], key) :: !CreatedBy(calls[k], key)
  }

  lemma CommitFrame(db: Db, q: Request, draw: Draw)
    ensures var (after, outcome) := CommitCreation(db, q, draw);
            && (outcome.Created? ==>
                  && q.key !in db.idempotency && outcome.intent == draw.id && draw.id !in db.intents
                  && after.idempotency == db.idempotency[q.key := Idempotency(q.Fp(), draw.id)]
                  && after.intents == db.intents[draw.id := RecordOf(q, draw)])
            && (!outcome.Created? ==> after == db)
            && (outcome.Replayed? ==>
                  q.key in db.idempotency && db.idempotency[q.key] == Idempotency(q.Fp(), outcome.intent))
  {
  }

  ghost predicate KeysOk(db: Db) {
    forall key <- db.idempotency ::
      && db.idempotency[key].intentId in db.intents
      && db.intents[db.idempotency[key].intentId].expected == db.idempotency[key].fingerprint.amount
      && db.intents[db.idempotency[key].intentId].expiresAt == db.idempotency[key].fingerprint.expiresAt
  }

  ghost predicate ServiceOk(s: Service) {
    KeysOk(s.db) && CallsOk(s) && |s.db.intents| == |s.db.idempotency|
  }

  /** Another unfinished or refused or replayed call, over the same tables, in terms of calls alone. */
  lemma CallAdded(s: Service, call: Call)
    requires CallsOk(s) && CallOk(s.db, call) && (call.Done? ==> !call.outcome.Created?)
    ensures CallsOk(s.(calls := s.calls + [call]))
  {
    var calls, n := s.calls + [call], |s.calls|;
    hide CallOk;
    forall key <- s.db.idempotency ensures exists k | 0 <= k < |calls| :: CreatedBy(calls[k], key) {
      var k :| 0 <= k < n && CreatedBy(s.calls[k], key);
      assert calls[k] == s.calls[k];
    }
    assert forall key: Key :: !CreatedBy(calls[n], key);
    assert forall k | 0 <= k < n :: calls[k] == s.calls[k];
  }

  lemma BeginKeepsCalls(s: Service, q: Request)
    requires CallsOk(s)
    ensures CallsOk(BeginCall(s, q))
  {
    var call := match Recall(s.db, q)
      case Some(outcome) => Done(q, outcome)
      case None => if InputOk(q) then Signing(q) else Done(q, Refused(IntentInput));
    hide CallsOk;
    assert BeginCall(s, q) == s.(calls := s.calls + [call]);
    hide BeginCall;
    CallAdded(s, call);
  }

  lemma ResumeKeepsKeys(s: Service, c: nat, draw: Draw)
    requires ServiceOk(s) && c < |s.calls| && s.calls[c].Signing?
    ensures KeysOk(ResumeCall(s, c, draw).db)
    ensures |ResumeCall(s, c, draw).db.intents| == |ResumeCall(s, c, draw).db.idempotency|
  {
    CommitFrame(s.db, s.calls[c].request, draw);
  }

  lemma ResumeKeepsCalls(s: Service, c: nat, draw: Draw)
    requires ServiceOk(s) && c < |s.calls| && s.calls[c].Signing?
    ensures CallsOk(ResumeCall(s, c, draw))
  {
    var q := s.calls[c].request;
    var after := ResumeCall(s, c, draw);
    CommitFrame(s.db, q, draw);
    forall key <- after.db.idempotency
      ensures exists k | 0 <= k < |after.calls| :: CreatedBy(after.calls[k], key)
    {
      if key in s.db.idempotency {
        var k :| 0 <= k < |s.calls| && CreatedBy(s.calls[k], key);
        assert CreatedBy(after.calls[k], key);
      } else {
        assert CreatedBy(after.calls[c], key);
      }
    }
    forall call <- after.calls ensures CallOk(after.db, call) {
      if call in s.calls { assert CallOk(s.db, call); }
    }
    ResumeKeepsCreators(s, c, draw);
  }

  lemma ResumeKeepsCreators(s: Service, c: nat, draw: Draw)
    requires ServiceOk(s) && c < |s.calls| && s.calls[c].Signing?
    ensures OneCreator(ResumeCall(s, c, draw).calls)
  {
    var q := s.calls[c].request;
    CommitFrame(s.db, q, draw);
    var calls := ResumeCall(s, c, draw).calls;
    forall j, k, key: Key | 0 <= j < k < |calls| && CreatedBy(calls[j], key) ensures !CreatedBy(calls[k], key) {
      assert CallOk(s.db, s.calls[j]) && CallOk(s.db, s.calls[k]);
    }
  }

  lemma {:induction false} ReachableOk(steps: seq<CallStep>)
    ensures ServiceOk(Run(steps))
  {
    if steps != [] {
      var last := |steps| - 1;
      ReachableOk(steps[..last]);
      var s := Run(steps[..last]);
      match steps[last]
      case Begin(q) => BeginKeepsCalls(s, q);
      case Resume(c, draw) =>
        if c < |s.calls| && s.calls[c].Signing? {
          ResumeKeepsKeys(s, c, draw);
          ResumeKeepsCalls(s, c, draw);
        }
    }
  }

  /** Two finished calls with one key: one intent, one fingerprint, one creator. */
  ghost predicate Agree(calls: seq<Call>, j: nat, k: nat)
    requires j < |calls| && k < |calls| && calls[j].Done? && calls[k].Done?
  {
    var a, b := calls[j], calls[k];
    && (!a.outcome.Refused? && !b.outcome.Refused? ==>
          a.outcome.intent == b.outcome.intent && a.request.Fp() == b.request.Fp())
    && (a.outcome.Created? && b.outcome.Created? ==> j == k)
    && (!a.outcome.Refused? && a.request.Fp() != b.request.Fp() ==> b.outcome.Refused?)
    && (!a.outcome.Refused? ==>
          exists c | 0 <= c < |calls| ::
            CreatedBy(calls[c], a.request.key) && calls[c].outcome.intent == a.outcome.intent)
  }

  lemma AgreeWhenOk(s: Service, j: nat, k: nat)
    requires CallsOk(s) && j < |s.calls| && k < |s.calls| && s.calls[j].Done? && s.calls[k].Done?
    requires s.calls[j].request.key == s.calls[k].request.key
    ensures Agree(s.calls, j, k)
  {
    var a := s.calls[j];
    assert CallOk(s.db, a) && CallOk(s.db, s.calls[k]);
    if !a.outcome.Refused? {
      var c :| 0 <= c < |s.calls| && CreatedBy(s.calls[c], a.request.key);
      assert CallOk(s.db, s.calls[c]);
    }
  }

  /** For every interleaving: calls that succeed with one key give one intent, all for one fingerprint,
      and exactly one of them created it; a call with another fingerprint does not succeed. No key, no intent:
      replays and refusals insert nothing. */
  lemma OneIntentPerKey(steps: seq<CallStep>, j: nat, k: nat)
    requires j < |Run(steps).calls| && k < |Run(steps).calls|
    requires Run(steps).calls[j].Done? && Run(steps).calls[k].Done?
    requires Run(steps).calls[j].request.key == Run(steps).calls[k].request.key
    ensures Agree(Run(steps).calls, j, k)
    ensures |Run(steps).db.intents| == |Run(steps).db.idempotency|
  {
    hide Run, CallsOk, Agree;
    ReachableOk(steps);
    AgreeWhenOk(Run(steps), j, k);
  }

  /** `key` means the same in `late` as it did in `early`, and its intent is the same record. */
  ghost predicate Persists(early: Db, late: Db, key: Key) {
    && key in early.idempotency && key in late.idempotency && late.idempotency[key] == early.idempotency[key]
    && var i := early.idempotency[key].intentId;
       i in early.intents && i in late.intents && late.intents[i] == early.intents[i]
  }

  lemma StillThere(s: Service, key: Key)
    requires ServiceOk(s) && key in s.db.idempotency
    ensures Persists(s.db, s.db, key)
  {
  }

  lemma StepKeepsKey(s: Service, step: CallStep, key: Key)
    requires ServiceOk(s) && key in s.db.idempotency
    ensures Persists(s.db, Step(s, step).db, key)
  {
    if step.Resume? && step.call < |s.calls| && s.calls[step.call].Signing? {
      CommitFrame(s.db, s.calls[step.call].request, step.draw);
    }
  }

  /** A stored key keeps its fingerprint and its intent for ever, and the intent keeps its amount. */
  lemma {:induction false} KeyIsForever(steps: seq<CallStep>, k: nat, key: Key)
    requires k <= |steps| && key in Run(steps[..k]).db.idempotency
    ensures Persists(Run(steps[..k]).db, Run(steps).db, key)
    decreases |steps|
  {
    hide Step, ServiceOk;
    if k == |steps| {
      assert steps[..k] == steps;
      ReachableOk(steps);
      StillThere(Run(steps), key);
    } else {
      var last := |steps| - 1;
      assert steps[..last][..k] == steps[..k];
      KeyIsForever(steps[..last], k, key);
      ReachableOk(steps[..last]);
      StepKeepsKey(Run(steps[..last]), steps[last], key);
    }
  }

  /** The step ends a call with this key: either a new one, or one that was still signing. */
  ghost predicate Ends(s: Service, step: CallStep, c: nat, key: Key) {
    && c < |Step(s, step).calls| && Step(s, step).calls[c].Done? && Step(s, step).calls[c].request.key == key
    && (c < |s.calls| ==> s.calls[c].Signing?)
  }

  lemma KeyDecides(s: Service, step: CallStep, c: nat, key: Key)
    requires key in s.db.idempotency && Ends(s, step, c, key)
    ensures Step(s, step).db == s.db
    ensures var stored, call := s.db.idempotency[key], Step(s, step).calls[c];
            call.outcome == if call.request.Fp() == stored.fingerprint then Replayed(stored.intentId)
                else Refused(IdempotencyConflict)
  {
  }

  /** Once a key is stored, whatever happened since, every call that ends with it changes nothing: it replays the stored
      intent if it asks for the same, and is an idempotency conflict otherwise, even if it began before the key was
      stored. */
  lemma StoredKeyDecides(steps: seq<CallStep>, k: nat, key: Key, step: CallStep, c: nat)
    requires k <= |steps| && key in Run(steps[..k]).db.idempotency && Ends(Run(steps), step, c, key)
    ensures var stored, s, after := Run(steps[..k]).db.idempotency[key], Run(steps), Run(steps + [step]);
            && after.db == s.db && c < |after.calls| && after.calls[c].Done?
            && after.calls[c].outcome
               == if after.calls[c].request.Fp() == stored.fingerprint then Replayed(stored.intentId)
                  else Refused(IdempotencyConflict)
  {
    assert (steps + [step])[..|steps|] == steps;
    assert Run(steps + [step]) == Step(Run(steps), step);
    hide Run, Step;
    KeyIsForever(steps, k, key);
    KeyDecides(Run(steps), step, c, key);
  }

  /** How a call begins: under a stored key it ends at once, replaying the stored intent for the same request and
      conflicting for any other; under a fresh key it goes on to sign exactly for a positive amount that expires later,
      and is refused otherwise. Nothing is written. */
  lemma BegunCall(s: Service, q: Request)
    ensures BeginCall(s, q).db == s.db && |BeginCall(s, q).calls| == |s.calls| + 1
    ensures BeginCall(s, q).calls[..|s.calls|] == s.calls
    ensures BeginCall(s, q).calls[|s.calls|]
         == if q.key in s.db.idempotency then
              var stored := s.db.idempotency[q.key];
              Done(q, if stored.fingerprint == Fingerprint(q.externalReference, q.amount, q.expiresAt)
                      then Replayed(stored.intentId) else Refused(IdempotencyConflict))
            else if q.amount > 0 && q.expiresAt > q.now then Signing(q)
            else Done(q, Refused(IntentInput))
  {
  }
}
