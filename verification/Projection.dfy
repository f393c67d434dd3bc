/** src/reconciliation/projection.ts: an intent's status and amounts as a fold over its settlements. */
module ProjectionModel {
  import opened Domain
  import opened Sums

  predicate Creditable(s: Settlement) {
    s.matchStatus == MATCHED && s.seen.chainStatus == FINALIZED && s.seen.poiStatus == SPENDABLE
  }

  predicate Pending(s: Settlement) {
    s.matchStatus == MATCHED && s.seen.chainStatus != REVERTED && !Creditable(s)
  }

  predicate Reverted(s: Settlement) {
    s.matchStatus == MATCHED && s.seen.chainStatus == REVERTED
  }

  // ---- The order of notes on chain --------------------------------------------------------------

  /** The comparator of `statusFor` and the ORDER BY of `listSettlementsForIntent`. */
  predicate Before(a: Settlement, b: Settlement) {
    || a.seen.blockNumber < b.seen.blockNumber
    || (a.seen.blockNumber == b.seen.blockNumber
        && (|| a.seen.identity.tree < b.seen.identity.tree
            || (a.seen.identity.tree == b.seen.identity.tree
                && a.seen.identity.position < b.seen.identity.position)))
  }

  ghost predicate Sorted(rows: seq<Settlement>) {
    forall i, j | 0 <= i < j < |rows| :: !Before(rows[j], rows[i])
  }

  function Insert(row: Settlement, rows: seq<Settlement>): (r: seq<Settlement>)
    ensures multiset(r) == multiset(rows) + multiset{row}
  {
    if rows == [] || !Before(rows[0], row) then [row] + rows
    else
      assert rows == [rows[0]] + rows[1..];
      [rows[0]] + Insert(row, rows[1..])
  }

  /** A stable sort: `Array.prototype.sort` is stable, and the query keeps row order among ties. */
  function Ordered(rows: seq<Settlement>): (r: seq<Settlement>)
    ensures multiset(r) == multiset(rows)
  {
    if rows == [] then []
    else
      assert rows == [rows[0]] + rows[1..];
      Insert(rows[0], Ordered(rows[1..]))
  }

  lemma {:induction false} InsertSorted(row: Settlement, rows: seq<Settlement>)
    requires Sorted(rows)
    ensures Sorted(Insert(row, rows))
  {
    if rows != [] && Before(rows[0], row) {
      InsertSorted(row, rows[1..]);
      var rest := Insert(row, rows[1..]);
      forall j | 0 <= j < |rest| ensures !Before(rest[j], rows[0]) {
        assert rest[j] in multiset(rest);
        assert rest[j] == row || rest[j] in rows[1..];
      }
    }
  }

  lemma {:induction false} OrderedSorted(rows: seq<Settlement>)
    ensures Sorted(Ordered(rows))
  {
    if rows != [] {
      OrderedSorted(rows[1..]);
      InsertSorted(rows[0], Ordered(rows[1..]));
    }
  }

  // ---- The crossing settlement ------------------------------------------------------------------

  /** The timestamp of the row at which the running total first covers `expected`. */
  function Crossing(ordered: seq<Settlement>, expected: nat, cumulative: nat, fallback: nat): nat {
    if ordered == [] then fallback
    else
      var total := cumulative + ordered[0].Amount();
      if total >= expected then ordered[0].Timestamp()
      else Crossing(ordered[1..], expected, total, fallback)
  }

  function StatusOf(intent: Intent, creditable: seq<Settlement>, received: nat, now: nat): IntentStatus {
    if received >= intent.expected then
      if Crossing(Ordered(creditable), intent.expected, 0, now) > intent.expiresAt then PAID_LATE else PAID
    else if received > 0 then PARTIAL
    else if now >= intent.expiresAt then EXPIRED else OPEN
  }

  /** `statusFor`, in the source's own loop. */
  method StatusFor(intent: Intent, creditable: seq<Settlement>, received: nat, now: nat)
    returns (status: IntentStatus)
    ensures status == StatusOf(intent, creditable, received, now)
  {
    if received >= intent.expected {
      var cumulative: nat := 0;
      var ordered := Ordered(creditable);
      var crossingTimestamp := now;
      for k := 0 to |ordered|
        invariant crossingTimestamp == now
        invariant Crossing(ordered, intent.expected, 0, now)
               == Crossing(ordered[k..], intent.expected, cumulative, now)
      {
        cumulative := cumulative + ordered[k].Amount();
        if cumulative >= intent.expected {
          crossingTimestamp := ordered[k].Timestamp();
          break;
        }
        assert ordered[k..][1..] == ordered[k + 1..];
      }
      return if crossingTimestamp > intent.expiresAt then PAID_LATE else PAID;
    }
    if received > 0 { return PARTIAL; }
    return if now >= intent.expiresAt then EXPIRED else OPEN;
  }

  // ---- deriveProjection -------------------------------------------------------------------------

  function Filter(rows: seq<Settlement>, p: Settlement -> bool): (r: seq<Settlement>)
    ensures forall x :: x in r <==> x in rows && p(x)
  {
    if rows == [] then []
    else (if p(rows[0]) then [rows[0]] else []) + Filter(rows[1..], p)
  }

  lemma {:induction false} SumFilter(rows: seq<Settlement>, p: Settlement -> bool, q: Settlement -> bool,
                                     both: Settlement -> bool)
    requires forall r <- rows :: both(r) == (p(r) && q(r))
    ensures SumIf(Filter(rows, p), q) == SumIf(rows, both)
  {
    if rows != [] {
      SumFilter(rows[1..], p, q, both);
      assert both(rows[0]) == (p(rows[0]) && q(rows[0]));
      var rest := Filter(rows[1..], p);
      if p(rows[0]) { assert ([rows[0]] + rest)[1..] == rest; } else { assert [] + rest == rest; }
    }
  }

  lemma {:induction false} FilterPermutation(a: seq<Settlement>, b: seq<Settlement>, p: Settlement -> bool)
    requires multiset(a) == multiset(b)
    ensures multiset(Filter(a, p)) == multiset(Filter(b, p))
  {
    forall x: Settlement ensures multiset(Filter(a, p))[x] == multiset(Filter(b, p))[x] {
      FilterCount(a, p, x);
      FilterCount(b, p, x);
    }
  }

  lemma {:induction false} FilterCount(a: seq<Settlement>, p: Settlement -> bool, x: Settlement)
    ensures multiset(Filter(a, p))[x] == if p(x) then multiset(a)[x] else 0
  {
    if a != [] {
      FilterCount(a[1..], p, x);
      assert a == [a[0]] + a[1..];
    }
  }

  function Overpayment(received: nat, expected: nat): nat {
    if received > expected then received - expected else 0
  }

  /** `deriveProjection`: the revision moves exactly when something visible moved. */
  function Derive(intent: Intent, rows: seq<Settlement>, previous: Projection, now: nat): Projection {
    var creditable := Filter(rows, Creditable);
    var received := SumIf(rows, Creditable);
    var next := Projection(
      StatusOf(intent, creditable, received, now), received, SumIf(rows, Pending),
      Overpayment(received, intent.expected), previous.revision, previous.updatedAt);
    if next == previous then previous
    else next.(revision := previous.revision + 1, updatedAt := now)
  }
}
