/** Which stored rows a scan looks up again, and what becomes of every row: src/runtime.ts `scanOnce`. */
module RecheckFacts {
  import opened Domain
  import opened Results
  import opened Database
  import opened Reconciliation
  import opened ServerInvariant
  import opened ServerSteps
  import opened ScanModel
  import opened ScanFacts

  /** What the providers say of a note leaves its identity alone. */
  ghost predicate KeepsNotes(refresh: Settlement -> Candidate) {
    forall row: Settlement :: refresh(row).id == row.seen.id && refresh(row).identity == row.seen.identity
  }

  /** A row that may still change on chain: not final, or credited within the window. */
  predicate Unsettled(row: Settlement, window: nat, now: nat) {
    row.seen.chainStatus in {OBSERVED, CONFIRMED, REVERTED}
    || (row.eligibleAt.Some? && row.eligibleAt.value + window >= now)
  }

  /** The places of the rows that are due: unsettled, and not among the notes just seen. */
  ghost function Again(rows: seq<Settlement>, seen: set<SettlementId>, window: nat, now: nat): set<nat> {
    set k: nat | k < |rows| && Unsettled(rows[k], window, now) && rows[k].seen.id !in seen
  }

  ghost predicate Refreshed(rows: seq<Settlement>, places: set<nat>, refresh: Settlement -> Candidate, c: Candidate) {
    exists k <- places :: k < |rows| && refresh(rows[k]) == c
  }

  lemma {:induction false} RechecksAre(
    rows: seq<Settlement>, seen: set<SettlementId>, window: nat, now: nat, refresh: Settlement -> Candidate)
    ensures var due := Rechecks(rows, seen, now - window, refresh);
            && |due| == |Again(rows, seen, window, now)|
            && forall c :: c in due <==> Refreshed(rows, Again(rows, seen, window, now), refresh, c)
  {
    if rows != [] {
      var last := |rows| - 1;
      RechecksAre(rows[..last], seen, window, now, refresh);
      var before, after := Again(rows[..last], seen, window, now), Again(rows, seen, window, now);
      var more := NeedsRecheck(rows[last], now - window) && rows[last].seen.id !in seen;
      assert after == before + if more then {last} else {};
      forall c
        ensures Refreshed(rows, after, refresh, c)
           <==> Refreshed(rows[..last], before, refresh, c) || (more && refresh(rows[last]) == c)
      {
        if k :| k in before && refresh(rows[..last][k]) == c { assert k in after && rows[k] == rows[..last][k]; }
        if more { assert last in after; }
        if k :| k in after && refresh(rows[k]) == c && k != last { assert k in before && rows[k] == rows[..last][k]; }
      }
    }
  }

  lemma {:induction false} RechecksDistinct(
    rows: seq<Settlement>, seen: set<SettlementId>, window: nat, now: nat, refresh: Settlement -> Candidate)
    requires KeepsNotes(refresh) && forall j, k | 0 <= j < k < |rows| :: rows[j].seen.id != rows[k].seen.id
    ensures DistinctIds(Rechecks(rows, seen, now - window, refresh))
  {
    if rows != [] {
      var last := |rows| - 1;
      RechecksDistinct(rows[..last], seen, window, now, refresh);
      RechecksAre(rows[..last], seen, window, now, refresh);
      var rest := Rechecks(rows[..last], seen, now - window, refresh);
      forall c <- rest ensures c.id != rows[last].seen.id {
        var k :| k in Again(rows[..last], seen, window, now) && refresh(rows[..last][k]) == c;
      }
    }
  }

  lemma RechecksFit(db: Db, seen: set<SettlementId>, window: nat, now: nat, refresh: Settlement -> Candidate)
    requires RowsOk(db) && Labelled(db) && KeepsNotes(refresh)
    ensures Fits(db, Rechecks(db.settlements, seen, now - window, refresh))
  {
    var due := Rechecks(db.settlements, seen, now - window, refresh);
    RechecksAre(db.settlements, seen, window, now, refresh);
    forall c <- due ensures Accepted(db, c) && c.id == c.identity.Utxo() {
      var k :| k in Again(db.settlements, seen, window, now) && refresh(db.settlements[k]) == c;
      assert RowOk(db, db.settlements[k]) && db.settlements[k] in db.settlements;
      ExistingIsMembership(db, db.settlements[k]);
    }
  }

  /** What a scan makes of one row that stood after its candidates. */
  ghost predicate LookedUp(
    mid: Db, after: Db, row: Settlement, seen: set<SettlementId>, window: nat, refresh: Settlement -> Candidate,
    now: nat)
  {
    if Unsettled(row, window, now) && row.seen.id !in seen
    then Existing(after, row.seen.id) == Some(Row(mid, refresh(row), now))
        && Row(mid, refresh(row), now).lastSeenAt == now
    else Existing(after, row.seen.id) == Some(row)
  }

  lemma OutcomeFacts(db: Db, batch: seq<Candidate>, now: nat, after: Db)
    requires Outcome(db, batch, now, after)
    ensures Inv(after) && Keyed(after) && RowsOk(after) && Labelled(after) && RowsOutcome(db, batch, now, after)
  {
    hide LogOk, AgreesBut;
  }

  lemma RowLookedUp(
    mid: Db, after: Db, row: Settlement, seen: set<SettlementId>, window: nat, refresh: Settlement -> Candidate,
    now: nat)
    requires RowsOk(mid) && row in mid.settlements && KeepsNotes(refresh)
    requires RowsOutcome(mid, Rechecks(mid.settlements, seen, now - window, refresh), now, after)
    ensures LookedUp(mid, after, row, seen, window, refresh, now)
  {
    var rows, due := mid.settlements, Rechecks(mid.settlements, seen, now - window, refresh);
    RechecksAre(rows, seen, window, now, refresh);
    var k: nat :| k < |rows| && rows[k] == row;
    if Unsettled(row, window, now) && row.seen.id !in seen {
      assert k in Again(rows, seen, window, now) && refresh(row) in due;
      hide Rechecks;
    } else {
      forall c <- due ensures c.id != row.seen.id {
        var j :| j in Again(rows, seen, window, now) && refresh(rows[j]) == c;
        assert j != k;
      }
      ExistingIsMembership(mid, row);
      hide Rechecks, Existing;
    }
  }

  lemma StandingIsFound(db: Db, row: Settlement)
    requires row in db.settlements
    ensures Existing(db, row.seen.id).Some?
  {
  }

  lemma SameIds(
    mid: Db, after: Db, seen: set<SettlementId>, window: nat, refresh: Settlement -> Candidate, now: nat)
    requires KeepsNotes(refresh)
    requires RowsOutcome(mid, Rechecks(mid.settlements, seen, now - window, refresh), now, after)
    ensures forall id: SettlementId :: Existing(after, id).Some? <==> Existing(mid, id).Some?
  {
    hide Existing, Row, Rechecks, Unsettled;
    var rows, due := mid.settlements, Rechecks(mid.settlements, seen, now - window, refresh);
    RechecksAre(rows, seen, window, now, refresh);
    forall id: SettlementId ensures Existing(after, id).Some? <==> Existing(mid, id).Some? {
      if c :| c in due && c.id == id {
        var k :| k in Again(rows, seen, window, now) && refresh(rows[k]) == c;
        StandingIsFound(mid, rows[k]);
      }
    }
  }

  /** After a scan of candidates that fit the tables: every row that stands once the candidates are in, is not one of
      them, and is not final or was credited within the window has been looked up once, and carries what the providers
      said of it and the time of the scan; every other row stands as it was. The count is the number of the former. */
  lemma ScanLooksUp(db: Db, candidates: seq<Candidate>, refresh: Settlement -> Candidate, window: nat, now: nat)
    requires Inv(db) && Fits(db, candidates) && DistinctIds(candidates) && KeepsNotes(refresh)
    ensures var mid := BatchTx(db, candidates, now).0;
            var (after, failure, count) := ScanTx(db, candidates, refresh, window, now);
            && failure == None && Inv(after)
            && count == |Again(mid.settlements, set c <- candidates :: c.id, window, now)|
            && (forall row <- mid.settlements ::
                  LookedUp(mid, after, row, set c <- candidates :: c.id, window, refresh, now))
            && forall id: SettlementId :: Existing(after, id).Some? <==> Existing(mid, id).Some?
  {
    hide Fits, DistinctIds, Again, Unsettled, Rechecks, Keyed, KeepsNotes, Row;
    BatchOutcome(db, candidates, now);
    var mid, seen := BatchTx(db, candidates, now).0, Ids(candidates);
    assert seen == set c <- candidates :: c.id;
    var due := Rechecks(mid.settlements, seen, now - window, refresh);
    OutcomeFacts(db, candidates, now, mid);
    RechecksFit(mid, seen, window, now, refresh);
    RechecksDistinct(mid.settlements, seen, window, now, refresh);
    RechecksAre(mid.settlements, seen, window, now, refresh);
    BatchOutcome(mid, due, now);
    var after := BatchTx(mid, due, now).0;
    OutcomeFacts(mid, due, now, after);
    hide BatchTx, Ids;
    forall row <- mid.settlements ensures LookedUp(mid, after, row, seen, window, refresh, now) {
      RowLookedUp(mid, after, row, seen, window, refresh, now);
    }
    SameIds(mid, after, seen, window, refresh, now);
  }
}
