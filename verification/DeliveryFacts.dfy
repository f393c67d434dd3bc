/** Which rows a delivery pass takes up, and what becomes of them: src/events/webhook.ts and the statements on the
    outbox in src/db/database.ts. */
module DeliveryFacts {
  import opened Domain
  import opened Results
  import opened Database
  import opened ServerInvariant
  import opened DeliveryModel
  import opened SystemInvariant
  import opened SystemSteps

  // ---- Which rows -------------------------------------------------------------------------------

  /** Not delivered, not given up, and its time has come. */
  predicate Waiting(d: Delivery, now: nat) {
    d.deliveredAt == None && d.deadLetteredAt == None && d.nextAttemptAt <= now
  }

  /** By the time of the event, then by the order of the table. */
  predicate Sooner(a: Snapshot, b: Snapshot) {
    a.event.occurredAt < b.event.occurredAt || (a.event.occurredAt == b.event.occurredAt && a.row < b.row)
  }

  ghost predicate InOrder(work: seq<Snapshot>) { forall j, k | 0 <= j < k < |work| :: Sooner(work[j], work[k]) }

  ghost predicate Remembers(outbox: seq<Event>, delivery: seq<Delivery>, s: Snapshot)
    requires |outbox| == |delivery|
  {
    s.row < |outbox| && s.event == outbox[s.row] && s.attempts == delivery[s.row].attempts
  }

  lemma InsertInFront(rest: seq<Snapshot>, init: seq<Snapshot>, s: Snapshot, last: Snapshot)
    requires InOrder(rest) && InOrder(init + [last]) && Sooner(s, last)
    requires forall t :: t in rest <==> t == s || t in init
    ensures InOrder(rest + [last])
  {
    forall j | 0 <= j < |rest| ensures Sooner(rest[j], last) {
      assert rest[j] in rest;
      if rest[j] != s {
        var i :| 0 <= i < |init| && init[i] == rest[j];
        assert (init + [last])[i] == init[i] && (init + [last])[|init|] == last;
      }
    }
    hide Sooner;
  }

  lemma InsertAtEnd(due: seq<Snapshot>, s: Snapshot)
    requires InOrder(due) && forall t <- due :: t.row < s.row
    requires due != [] ==> due[|due| - 1].event.occurredAt <= s.event.occurredAt
    ensures InOrder(due + [s])
  {
    forall j | 0 <= j < |due| ensures Sooner(due[j], s) {
      assert due[j] in due;
      assert j < |due| - 1 ==> Sooner(due[j], due[|due| - 1]);
    }
    hide Sooner;
  }

  lemma {:induction false} InsertInPlace(due: seq<Snapshot>, s: Snapshot)
    requires InOrder(due) && DistinctRows(due) && forall t <- due :: t.row < s.row
    ensures InOrder(InsertDue(due, s)) && forall t :: t in InsertDue(due, s) <==> t == s || t in due
    ensures |InsertDue(due, s)| == |due| + 1
  {
    if due == [] || due[|due| - 1].event.occurredAt <= s.event.occurredAt {
      InsertAtEnd(due, s);
      hide InOrder;
    } else {
      var init, last := due[..|due| - 1], due[|due| - 1];
      assert due == init + [last];
      assert InOrder(init) && DistinctRows(init) && forall t <- init :: t.row < s.row && t.row != last.row;
      InsertInPlace(init, s);
      hide InOrder, DistinctRows;
      InsertInFront(InsertDue(init, s), init, s, last);
    }
  }

  lemma {:induction false} DueIff(outbox: seq<Event>, delivery: seq<Delivery>, now: nat)
    requires |outbox| == |delivery|
    ensures var due := Due(outbox, delivery, now);
            && InOrder(due) && (forall s <- due :: Remembers(outbox, delivery, s))
            && forall k | 0 <= k < |outbox| :: Waiting(delivery[k], now) <==> exists s <- due :: s.row == k
  {
    if outbox != [] {
      var last := |outbox| - 1;
      DueIff(outbox[..last], delivery[..last], now);
      var earlier := Due(outbox[..last], delivery[..last], now);
      var s := Snapshot(last, outbox[last], delivery[last].attempts);
      InsertInPlace(earlier, s);
      var due := Due(outbox, delivery, now);
      forall k | 0 <= k < last ensures Waiting(delivery[k], now) <==> exists t <- due :: t.row == k {
        assert delivery[k] == delivery[..last][k];
        assert Waiting(delivery[k], now) <==> exists t <- earlier :: t.row == k;
        assert forall t <- due :: t in earlier || t == s;
        assert forall t <- earlier :: t in due;
      }
      assert Waiting(delivery[last], now) ==> s in due;
    }
  }

  /** A pass takes the waiting rows, or the first twenty-five of them, in order of occurrence. */
  lemma PassTakesTheFirst(db: Db, now: nat)
    requires |db.outbox| == |db.delivery|
    ensures var work := Snapshots(db, now);
            && |work| <= 25 && InOrder(work)
            && (forall s <- work :: Remembers(db.outbox, db.delivery, s) && Waiting(db.delivery[s.row], now))
            && (forall k | 0 <= k < |db.outbox| && Waiting(db.delivery[k], now) ::
                  || (exists s <- work :: s.row == k)
                  || (|work| == 25 && Sooner(work[24], Snapshot(k, db.outbox[k], db.delivery[k].attempts))))
  {
    var due, work := Due(db.outbox, db.delivery, now), Snapshots(db, now);
    DueIff(db.outbox, db.delivery, now);
    forall k | 0 <= k < |db.outbox| && Waiting(db.delivery[k], now)
      ensures (exists s <- work :: s.row == k)
           || (|work| == 25 && Sooner(work[24], Snapshot(k, db.outbox[k], db.delivery[k].attempts)))
    {
      var j :| 0 <= j < |due| && due[j].row == k;
      assert due[j] in due;
      if j < |work| {
        assert work[j] == due[j] && work[j] in work;
      } else {
        assert Sooner(due[24], due[j]);
      }
    }
    forall s <- work ensures Waiting(db.delivery[s.row], now) { assert s in due; }
  }

  // ---- What becomes of a row --------------------------------------------------------------------

  /** The delay after a failure in whole seconds: the milliseconds rounded up, and never less than one. */
  ghost predicate RoundsUp(seconds: nat, ms: nat) {
    seconds >= 1 && 1000 * seconds >= ms && (seconds > 1 ==> 1000 * (seconds - 1) < ms)
  }

  /** The doubled base, up to the cap. */
  function DelayMs(config: Config, attempts: nat): nat {
    var doubled := Doubled(config.baseRetryMs, attempts);
    if doubled < config.maxRetryMs then doubled else config.maxRetryMs
  }

  function Doubled(ms: nat, times: nat): nat { if times == 0 then ms else 2 * Doubled(ms, times - 1) }

  lemma {:induction false} DoubledIsProduct(ms: nat, times: nat)
    ensures Doubled(ms, times) == ms * Pow2(times)
  {
    if times > 0 { DoubledIsProduct(ms, times - 1); }
  }

  /** A row after one attempt: one attempt more, and delivered, due again after the delay, or given up with the last
      attempt. */
  ghost predicate Attempted(config: Config, d: Delivery, after: Delivery, ok: bool, now: nat) {
    && after.attempts == d.attempts + 1
    && (if ok
        then after.deliveredAt == Some(now) && after.deadLetteredAt == None && after.nextAttemptAt == d.nextAttemptAt
        else if d.attempts + 1 >= config.maxAttempts
        then after.deliveredAt == None && after.deadLetteredAt == Some(now) && after.nextAttemptAt == d.nextAttemptAt
        else
          && after.deliveredAt == None && after.deadLetteredAt == None && after.nextAttemptAt > now
          && RoundsUp(after.nextAttemptAt - now, DelayMs(config, d.attempts)))
  }

  lemma AttemptedRow(config: Config, d: Delivery, ok: bool, now: nat)
    requires IsPending(d)
    ensures Attempted(config, d, SettledRow(config, d, ok, now), ok, now)
  {
    DoubledIsProduct(config.baseRetryMs, d.attempts);
  }

  /** Settling a row that a pass remembers does that to it and nothing to any other row. */
  lemma SettledAttempt(db: Db, config: Config, s: Snapshot, ok: bool, now: nat)
    requires LogOk(db) && WorkOk(db, [s])
    ensures var after := Settled(db, config, s, ok, now);
            && |after.delivery| == |db.delivery| && s.row < |db.delivery|
            && after == db.(delivery := db.delivery[s.row := after.delivery[s.row]])
            && Attempted(config, db.delivery[s.row], after.delivery[s.row], ok, now)
  {
    assert s in [s];
    SettledIsWithRow(db, config, s, ok, now);
    AttemptedRow(config, db.delivery[s.row], ok, now);
    hide LogOk, Settled, SettledRow, Attempted;
  }

  lemma LastIsOther(db: Db, work: seq<Snapshot>)
    requires work != [] && WorkOk(db, work)
    ensures forall k | 0 <= k < |work| :: work[k].row < |db.delivery|
    ensures forall k | 0 <= k < |work| - 1 :: work[k].row != work[|work| - 1].row
  {
  }

  /** Settling the other rows leaves the last remembered row as it was. */
  lemma LastIsOk(db: Db, before: Db, work: seq<Snapshot>)
    requires work != [] && WorkOk(db, work) && |before.delivery| == |db.delivery|
    requires before == db.(delivery := before.delivery)
    requires forall row | 0 <= row < |db.delivery| && (forall s <- work[..|work| - 1] :: s.row != row) ::
               before.delivery[row] == db.delivery[row]
    ensures WorkOk(before, [work[|work| - 1]])
  {
  }

  /** Each row that a pass remembers was attempted once, with its own answer; the others stand. */
  ghost predicate AllAttempted(
    config: Config, before: seq<Delivery>, after: seq<Delivery>, work: seq<Snapshot>, responses: nat -> bool, now: nat)
  {
    && |after| == |before|
    && (forall k | 0 <= k < |work| ::
          work[k].row < |before| && Attempted(config, before[work[k].row], after[work[k].row], responses(k), now))
    && forall row | 0 <= row < |before| && (forall s <- work :: s.row != row) :: after[row] == before[row]
  }

  lemma OneMoreAttempted(
    config: Config, before: seq<Delivery>, mid: seq<Delivery>, d: Delivery, work: seq<Snapshot>,
    responses: nat -> bool, now: nat)
    requires work != [] && AllAttempted(config, before, mid, work[..|work| - 1], responses, now)
    requires forall k | 0 <= k < |work| - 1 :: work[k].row != work[|work| - 1].row
    requires work[|work| - 1].row < |before|
    requires Attempted(config, mid[work[|work| - 1].row], d, responses(|work| - 1), now)
    ensures AllAttempted(config, before, mid[work[|work| - 1].row := d], work, responses, now)
  {
    hide Attempted;
  }

  lemma OthersStand(config: Config, db: Db, mid: Db, work: seq<Snapshot>, responses: nat -> bool, now: nat)
    requires AllAttempted(config, db.delivery, mid.delivery, work, responses, now)
    ensures |mid.delivery| == |db.delivery|
    ensures forall row | 0 <= row < |db.delivery| && (forall s <- work :: s.row != row) ::
              mid.delivery[row] == db.delivery[row]
  {
  }

  lemma EachHasItsRow(db: Db, work: seq<Snapshot>)
    requires WorkOk(db, work)
    ensures |db.outbox| == |db.delivery|
  {
  }

  lemma PassUnfolds(db: Db, config: Config, work: seq<Snapshot>, responses: nat -> bool, now: nat)
    requires LogOk(db) && WorkOk(db, work) && work != []
    requires LogOk(Pass(db, config, work[..|work| - 1], responses, now))
    requires WorkOk(Pass(db, config, work[..|work| - 1], responses, now), [work[|work| - 1]])
    ensures Pass(db, config, work, responses, now)
         == Settled(Pass(db, config, work[..|work| - 1], responses, now), config, work[|work| - 1],
              responses(|work| - 1), now)
  {
    hide Settled, LogOk;
  }

  lemma PassOfNothing(db: Db, config: Config, responses: nat -> bool, now: nat)
    requires |db.outbox| == |db.delivery|
    ensures Pass(db, config, [], responses, now) == db
    ensures AllAttempted(config, db.delivery, db.delivery, [], responses, now)
  {
  }

  /** A pass that nothing interrupts settles each row it took once, with its own answer, and leaves the others alone. */
  lemma {:induction false} PassSettles(db: Db, config: Config, work: seq<Snapshot>, responses: nat -> bool, now: nat)
    requires LogOk(db) && WorkOk(db, work)
    ensures var after := Pass(db, config, work, responses, now);
            && after == db.(delivery := after.delivery)
            && AllAttempted(config, db.delivery, after.delivery, work, responses, now)
    decreases |work|
  {
    hide *;
    EachHasItsRow(db, work);
    if work == [] {
      PassOfNothing(db, config, responses, now);
    } else {
      var last := |work| - 1;
      var rest, s := work[..last], work[last];
      WorkPrefix(db, work);
      PassSettles(db, config, rest, responses, now);
      var before := Pass(db, config, rest, responses, now);
      OthersStand(config, db, before, rest, responses, now);
      LogIgnoresDelivery(db, before.delivery);
      LastIsOk(db, before, work);
      EachHasItsRow(before, [s]);
      SettledAttempt(before, config, s, responses(last), now);
      LastIsOther(db, work);
      PassUnfolds(db, config, work, responses, now);
      var settled := Settled(before, config, s, responses(last), now).delivery[s.row];
      OneMoreAttempted(config, db.delivery, before.delivery, settled, work, responses, now);
    }
  }

  lemma WorkPrefix(db: Db, work: seq<Snapshot>)
    requires WorkOk(db, work) && work != []
    ensures WorkOk(db, work[..|work| - 1]) && forall t <- work[..|work| - 1] :: t.row != work[|work| - 1].row
    ensures work[|work| - 1].row < |db.outbox| && db.outbox[work[|work| - 1].row] == work[|work| - 1].event
  {
    assert work[|work| - 1] in work;
  }

  lemma LogIgnoresDelivery(db: Db, delivery: seq<Delivery>)
    requires LogOk(db)
    ensures LogOk(db.(delivery := delivery))
  {
    var after := db.(delivery := delivery);
    forall e <- after.outbox ensures EventOk(after, e) { assert EventOk(db, e); }
    forall i ensures LogFor(after, i) { assert LogFor(db, i); }
  }

  /** A replay makes a row that was given up pending again, without attempts and due at once; it does nothing to any
      other row, and nothing at all to a row that is pending or delivered. */
  lemma ReplayRevives(db: Db, row: nat, now: nat)
    requires LogOk(db) && row < |db.outbox| == |db.delivery|
    ensures var after := Update(db, db.outbox[row].id, MarkReplayed(now));
            && |after.delivery| == |db.delivery|
            && after == db.(delivery := db.delivery[row := after.delivery[row]])
            && if db.delivery[row].deadLetteredAt.Some?
               then
                 && after.delivery[row].attempts == 0 && after.delivery[row].nextAttemptAt == now
                 && after.delivery[row].deliveredAt == None && after.delivery[row].deadLetteredAt == None
               else after.delivery[row] == db.delivery[row]
  {
    RowOfEvent(db, row);
    hide IndexOf, LogOk;
  }
}
