/** Webhook delivery from the outbox, src/events/webhook.ts. */
module DeliveryModel {
  import opened Domain
  import opened Results
  import opened Database

  datatype Config = Config(maxAttempts: nat, baseRetryMs: nat, maxRetryMs: nat)
  {
    ghost predicate Valid() { maxAttempts > 0 && baseRetryMs > 0 && maxRetryMs > 0 }
  }

  const PASS_LIMIT: nat := 25

  /** What one pass remembers of a row it is going to deliver. */
  datatype Snapshot = Snapshot(row: nat, event: Event, attempts: nat)

  // ---- Statements on the outbox -----------------------------------------------------------------

  function IndexOf(outbox: seq<Event>, id: EventId): (r: Option<nat>)
    ensures r.Some? ==> r.value < |outbox| && outbox[r.value].id == id
    ensures r.None? ==> forall e <- outbox :: e.id != id
  {
    if outbox == [] then None
    else if outbox[0].id == id then Some(0)
    else match IndexOf(outbox[1..], id)
      case None => None
      case Some(k) => Some(k + 1)
  }

  predicate IsPending(d: Delivery) { d.deliveredAt.None? && d.deadLetteredAt.None? }

  ghost predicate DistinctRows(work: seq<Snapshot>) {
    forall j, k | 0 <= j < k < |work| :: work[j].row != work[k].row
  }

  /** `listPendingEvents` before LIMIT: due rows by occurrence, then rowid. */
  function Due(outbox: seq<Event>, delivery: seq<Delivery>, now: nat): (r: seq<Snapshot>)
    requires |outbox| == |delivery|
    ensures forall s <- r :: s.row < |outbox| && s.event == outbox[s.row] && s.attempts == delivery[s.row].attempts
                             && IsPending(delivery[s.row]) && delivery[s.row].nextAttemptAt <= now
    ensures DistinctRows(r)
  {
    if outbox == [] then []
    else
      var last := |outbox| - 1;
      var earlier := Due(outbox[..last], delivery[..last], now);
      if IsPending(delivery[last]) && delivery[last].nextAttemptAt <= now
      then InsertDue(earlier, Snapshot(last, outbox[last], delivery[last].attempts))
      else earlier
  }

  /** Keeps the list ordered by occurrence; a later row goes after its equals. */
  function InsertDue(due: seq<Snapshot>, s: Snapshot): (r: seq<Snapshot>)
    requires DistinctRows(due) && forall t <- due :: t.row != s.row
    ensures DistinctRows(r)
    ensures forall t <- r :: t == s || t in due
  {
    if due == [] || due[|due| - 1].event.occurredAt <= s.event.occurredAt then due + [s]
    else
      var last := |due| - 1;
      var rest := InsertDue(due[..last], s);
      assert forall t <- due[..last] :: t.row != due[last].row;
      assert forall j | 0 <= j < |rest| :: rest[j] in rest;
      rest + [due[last]]
  }

  function Update(db: Db, id: EventId, change: Delivery -> Delivery): Db
    requires |db.outbox| == |db.delivery|
  {
    match IndexOf(db.outbox, id)
    case None => db
    case Some(k) => db.(delivery := db.delivery[k := change(db.delivery[k])])
  }

  function MarkDelivered(now: nat): Delivery -> Delivery {
    (d: Delivery) => d.(deliveredAt := Some(now), attempts := d.attempts + 1)
  }

  function MarkFailed(next: nat): Delivery -> Delivery {
    (d: Delivery) => d.(nextAttemptAt := next, attempts := d.attempts + 1)
  }

  function MarkDeadLettered(now: nat): Delivery -> Delivery {
    (d: Delivery) => d.(deadLetteredAt := Some(now), attempts := d.attempts + 1)
  }

  /** `replayDeadLetteredEvent` leaves every row but a dead-lettered one alone. */
  function MarkReplayed(now: nat): Delivery -> Delivery {
    (d: Delivery) => if d.deadLetteredAt.Some? then Delivery(0, now, None, None) else d
  }

  // ---- Backoff ----------------------------------------------------------------------------------

  function Pow2(n: nat): nat { if n == 0 then 1 else 2 * Pow2(n - 1) }

  function CeilSeconds(ms: nat): nat { (ms + 999) / 1000 }

  function Min(a: nat, b: nat): nat { if a <= b then a else b }
  function Max(a: nat, b: nat): nat { if a >= b then a else b }

  function RetrySeconds(config: Config, attempts: nat): nat {
    Max(1, CeilSeconds(Min(config.baseRetryMs * Pow2(attempts), config.maxRetryMs)))
  }

  lemma {:induction false} Pow2Grows(a: nat, b: nat)
    requires a <= b
    ensures Pow2(a) <= Pow2(b)
  {
    if a < b { Pow2Grows(a, b - 1); }
  }

  lemma ProductGrows(x: nat, a: nat, b: nat)
    requires a <= b
    ensures x * a <= x * b
  {
  }

  lemma SecondsGrow(x: nat, y: nat, cap: nat)
    requires x <= y
    ensures 1 <= Max(1, CeilSeconds(Min(x, cap))) <= Max(1, CeilSeconds(Min(y, cap))) <= Max(1, CeilSeconds(cap))
    ensures x >= cap ==> Min(y, cap) == cap
  {
  }

  /** Each retry waits at least as long as the one before, at least a second, and at most the cap. */
  lemma BackoffGrowsToCap(config: Config, a: nat, b: nat)
    requires a <= b
    ensures 1 <= RetrySeconds(config, a) <= RetrySeconds(config, b) <= Max(1, CeilSeconds(config.maxRetryMs))
    ensures config.baseRetryMs * Pow2(a) >= config.maxRetryMs ==>
              RetrySeconds(config, b) == Max(1, CeilSeconds(config.maxRetryMs))
  {
    Pow2Grows(a, b);
    ProductGrows(config.baseRetryMs, Pow2(a), Pow2(b));
    SecondsGrow(config.baseRetryMs * Pow2(a), config.baseRetryMs * Pow2(b), config.maxRetryMs);
  }

  // ---- One pass ---------------------------------------------------------------------------------

  /** The row update after a response, from the attempts the pass remembers. */
  function Settled(db: Db, config: Config, s: Snapshot, ok: bool, now: nat): Db
    requires |db.outbox| == |db.delivery|
  {
    if ok then Update(db, s.event.id, MarkDelivered(now))
    else if s.attempts + 1 >= config.maxAttempts then Update(db, s.event.id, MarkDeadLettered(now))
    else Update(db, s.event.id, MarkFailed(now + RetrySeconds(config, s.attempts)))
  }

  function Snapshots(db: Db, now: nat): (r: seq<Snapshot>)
    requires |db.outbox| == |db.delivery|
  {
    var due := Due(db.outbox, db.delivery, now);
    due[..Min(PASS_LIMIT, |due|)]
  }

  /** A pass that nothing interrupts, given the response to each request. */
  function Pass(db: Db, config: Config, work: seq<Snapshot>, responses: nat -> bool, now: nat): (r: Db)
    requires |db.outbox| == |db.delivery|
    ensures |r.outbox| == |r.delivery|
  {
    if work == [] then db
    else
      var last := |work| - 1;
      Settled(Pass(db, config, work[..last], responses, now), config, work[last], responses(last), now)
  }

  lemma PassSnoc(db: Db, config: Config, work: seq<Snapshot>, responses: nat -> bool, now: nat, k: nat)
    requires |db.outbox| == |db.delivery| && k < |work|
    ensures Pass(db, config, work[..k + 1], responses, now)
         == Settled(Pass(db, config, work[..k], responses, now), config, work[k], responses(k), now)
  {
    assert work[..k + 1][..k] == work[..k];
  }

  /** How many of the first responses were successes. */
  function Successes(responses: nat -> bool, n: nat): nat {
    if n == 0 then 0 else Successes(responses, n - 1) + if responses(n - 1) then 1 else 0
  }

  /** How many of the first rows failed at their last attempt. */
  function GivenUp(config: Config, work: seq<Snapshot>, responses: nat -> bool, n: nat): nat
    requires n <= |work|
  {
    if n == 0 then 0
    else
      GivenUp(config, work, responses, n - 1)
      + if !responses(n - 1) && work[n - 1].attempts + 1 >= config.maxAttempts then 1 else 0
  }

  datatype DeliveryResult = DeliveryResult(attempted: nat, delivered: nat, failed: nat, deadLettered: nat)

  class WebhookDeliveryService {
    const database: PPOpsDatabase
    const config: Config

    constructor (database: PPOpsDatabase, config: Config)
      ensures this.database == database && this.config == config
    {
      this.database := database;
      this.config := config;
    }

    method Mark(id: EventId, change: Delivery -> Delivery)
      requires |database.outbox| == |database.delivery|
      modifies database`delivery
      ensures database.State() == Update(old(database.State()), id, change)
      ensures |database.outbox| == |database.delivery|
    {
      var k := IndexOf(database.outbox, id);
      if k.Some? {
        database.delivery := database.delivery[k.value := change(database.delivery[k.value])];
      }
    }

    /** What happens to one row once its request has been answered or has failed. */
    method SettleRecord(record: Snapshot, ok: bool, result: DeliveryResult, now: nat) returns (next: DeliveryResult)
      requires |database.outbox| == |database.delivery|
      modifies database`delivery
      ensures |database.outbox| == |database.delivery|
      ensures database.State() == Settled(old(database.State()), config, record, ok, now)
      ensures next.attempted == result.attempted
      ensures next.delivered + next.failed + next.deadLettered
              == result.delivered + result.failed + result.deadLettered + 1
      ensures next.delivered == result.delivered + if ok then 1 else 0
      ensures next.deadLettered
              == result.deadLettered + if !ok && record.attempts + 1 >= config.maxAttempts then 1 else 0
    {
      if ok {
        Mark(record.event.id, MarkDelivered(now));
        next := result.(delivered := result.delivered + 1);
      } else if record.attempts + 1 >= config.maxAttempts {
        Mark(record.event.id, MarkDeadLettered(now));
        next := result.(deadLettered := result.deadLettered + 1);
      } else {
        Mark(record.event.id, MarkFailed(now + RetrySeconds(config, record.attempts)));
        next := result.(failed := result.failed + 1);
      }
    }

    /** `deliverPendingExclusive`. Every listed row is attempted once, and each attempt is counted as
        exactly one of delivered, failed and dead-lettered. */
    method DeliverPending(responses: nat -> bool, now: nat) returns (result: DeliveryResult)
      requires |database.outbox| == |database.delivery|
      modifies database`delivery
      ensures database.State()
           == Pass(old(database.State()), config, Snapshots(old(database.State()), now), responses, now)
      ensures result.attempted == |Snapshots(old(database.State()), now)|
      ensures result.attempted == result.delivered + result.failed + result.deadLettered
      ensures result.delivered == Successes(responses, result.attempted)
      ensures result.deadLettered
              == GivenUp(config, Snapshots(old(database.State()), now), responses, result.attempted)
    {
      var due := Due(database.outbox, database.delivery, now);
      var work := due[..Min(PASS_LIMIT, |due|)];
      ghost var start := database.State();
      assert work == Snapshots(start, now) && Pass(start, config, work[..0], responses, now) == start;
      hide Due, Settled, Pass, Snapshots;
      result := DeliveryResult(0, 0, 0, 0);
      for k := 0 to |work|
        invariant |database.outbox| == |database.delivery|
        invariant database.State() == Pass(start, config, work[..k], responses, now)
        invariant result.attempted == k == result.delivered + result.failed + result.deadLettered
        invariant result.delivered == Successes(responses, k)
        invariant result.deadLettered == GivenUp(config, work, responses, k)
      {
        PassSnoc(start, config, work, responses, now, k);
        result := SettleRecord(work[k], responses(k), result.(attempted := result.attempted + 1), now);
      }
      assert work[..|work|] == work;
    }
  }
}
