/** What the sort-and-accumulate loop of `statusFor` decides, in terms that mention no order of rows. */
module CrossingFacts {
  import opened Domain
  import opened Sums
  import opened ProjectionModel

  predicate Any(s: Settlement) { true }

  /** The place of a note on chain: its block, then its tree, then its position. */
  predicate Earlier(a: Settlement, b: Settlement) {
    || a.seen.blockNumber < b.seen.blockNumber
    || (a.seen.blockNumber == b.seen.blockNumber && a.seen.identity.tree < b.seen.identity.tree)
    || (a.seen.blockNumber == b.seen.blockNumber && a.seen.identity.tree == b.seen.identity.tree
        && a.seen.identity.position < b.seen.identity.position)
  }

  function Below(k: Settlement): Settlement -> bool { r => Earlier(r, k) }
  function UpTo(k: Settlement): Settlement -> bool { r => !Earlier(k, r) }
  function StampedBy(deadline: nat): Settlement -> bool { (r: Settlement) => r.Timestamp() <= deadline }

  /** `k` is where the total crosses: what lies below it falls short, what lies up to it suffices. */
  ghost predicate Cut(rows: seq<Settlement>, expected: nat, k: Settlement) {
    k in rows && SumIf(rows, Below(k)) < expected <= SumIf(rows, UpTo(k))
  }

  /** Notes at the same place on chain carry the same block timestamp. */
  ghost predicate TiesAgree(rows: seq<Settlement>) {
    forall a <- rows, b <- rows :: !Earlier(a, b) && !Earlier(b, a) ==> a.Timestamp() == b.Timestamp()
  }

  /** Block timestamps do not decrease along (block, tree, position). */
  ghost predicate Chronological(rows: seq<Settlement>) {
    forall a <- rows, b <- rows :: !Earlier(b, a) ==> a.Timestamp() <= b.Timestamp()
  }

  lemma {:induction false} CrossingIndex(ordered: seq<Settlement>, expected: nat, cumulative: nat, fallback: nat)
    returns (k: nat)
    requires cumulative < expected <= cumulative + SumIf(ordered, Any)
    ensures k < |ordered| && Crossing(ordered, expected, cumulative, fallback) == ordered[k].Timestamp()
    ensures cumulative + SumIf(ordered[..k], Any) < expected <= cumulative + SumIf(ordered[..k + 1], Any)
  {
    var total := cumulative + ordered[0].Amount();
    if total >= expected {
      k := 0;
    } else {
      var j := CrossingIndex(ordered[1..], expected, total, fallback);
      k := j + 1;
      assert ordered[..k] == [ordered[0]] + ordered[1..][..j];
      assert ordered[..k + 1] == [ordered[0]] + ordered[1..][..j + 1];
      SumIfConcat([ordered[0]], ordered[1..][..j], Any);
      SumIfConcat([ordered[0]], ordered[1..][..j + 1], Any);
    }
  }

  lemma {:induction false} SumIfNone(rows: seq<Settlement>, p: Settlement -> bool)
    requires forall r <- rows :: !p(r)
    ensures SumIf(rows, p) == 0
  {
    if rows != [] { SumIfNone(rows[1..], p); }
  }

  /** In a sorted list, the rows below the one at `n` all come earlier. */
  lemma BelowIsEarlier(ordered: seq<Settlement>, n: nat)
    requires Sorted(ordered) && n < |ordered|
    ensures SumIf(ordered, Below(ordered[n])) <= SumIf(ordered[..n], Any)
  {
    var k := ordered[n];
    assert ordered == ordered[..n] + ordered[n..];
    SumIfConcat(ordered[..n], ordered[n..], Below(k));
    SumIfNone(ordered[n..], Below(k));
    SumIfMonotone(ordered[..n], Below(k), Any);
  }

  lemma EarlierIsUpTo(ordered: seq<Settlement>, n: nat)
    requires Sorted(ordered) && n < |ordered|
    ensures SumIf(ordered[..n + 1], Any) <= SumIf(ordered, UpTo(ordered[n]))
  {
    var k := ordered[n];
    assert ordered == ordered[..n + 1] + ordered[n + 1..];
    SumIfConcat(ordered[..n + 1], ordered[n + 1..], UpTo(k));
    SumIfMonotone(ordered[..n + 1], Any, UpTo(k));
  }

  /** The loop stops at a cut, so the fallback `now` plays no part in a covered intent. */
  lemma CrossingIsCut(rows: seq<Settlement>, expected: nat, fallback: nat) returns (k: Settlement)
    requires 0 < expected <= SumIf(rows, Any)
    ensures Cut(rows, expected, k) && Crossing(Ordered(rows), expected, 0, fallback) == k.Timestamp()
  {
    var ordered := Ordered(rows);
    OrderedSorted(rows);
    SumIfPermutation(rows, ordered, Any);
    var n := CrossingIndex(ordered, expected, 0, fallback);
    k := ordered[n];
    BelowIsEarlier(ordered, n);
    EarlierIsUpTo(ordered, n);
    CutPermutation(ordered, rows, expected, k);
  }

  /** All cuts lie at one place on chain. */
  lemma CutUnique(rows: seq<Settlement>, expected: nat, j: Settlement, k: Settlement)
    requires Cut(rows, expected, j) && Cut(rows, expected, k)
    ensures !Earlier(j, k) && !Earlier(k, j)
  {
    if Earlier(j, k) {
      SumIfMonotone(rows, UpTo(j), Below(k));
    } else if Earlier(k, j) {
      SumIfMonotone(rows, UpTo(k), Below(j));
    }
  }

  lemma CutPermutation(a: seq<Settlement>, b: seq<Settlement>, expected: nat, k: Settlement)
    requires multiset(a) == multiset(b) && Cut(a, expected, k)
    ensures Cut(b, expected, k)
  {
    assert k in multiset(a);
    SumIfPermutation(a, b, Below(k));
    SumIfPermutation(a, b, UpTo(k));
  }

  /** The status depends on the set of creditable notes, not on the order in which they arrive, and
      for a covered intent not on the clock either. */
  lemma StatusIgnoresOrder(intent: Intent, a: seq<Settlement>, b: seq<Settlement>, now: nat, later: nat)
    requires multiset(a) == multiset(b) && TiesAgree(a) && intent.expected > 0
    ensures StatusOf(intent, a, SumIf(a, Any), now) == StatusOf(intent, b, SumIf(b, Any), now)
    ensures SumIf(a, Any) >= intent.expected ==>
              StatusOf(intent, a, SumIf(a, Any), now) == StatusOf(intent, b, SumIf(b, Any), later)
  {
    SumIfPermutation(a, b, Any);
    if SumIf(a, Any) >= intent.expected {
      var j := CrossingIsCut(a, intent.expected, now);
      var k := CrossingIsCut(b, intent.expected, later);
      var l := CrossingIsCut(b, intent.expected, now);
      CutPermutation(b, a, intent.expected, k);
      CutPermutation(b, a, intent.expected, l);
      CutUnique(a, intent.expected, j, k);
      CutUnique(a, intent.expected, j, l);
    }
  }

  /** PAID means: the notes stamped at or before expiry already cover the expected amount. */
  lemma PaidIffCoveredOnTime(intent: Intent, rows: seq<Settlement>, now: nat)
    requires intent.expected > 0 && Chronological(rows)
    ensures StatusOf(intent, rows, SumIf(rows, Any), now) == PAID
       <==> SumIf(rows, StampedBy(intent.expiresAt)) >= intent.expected
    ensures StatusOf(intent, rows, SumIf(rows, Any), now) == PAID_LATE
       <==> SumIf(rows, StampedBy(intent.expiresAt)) < intent.expected <= SumIf(rows, Any)
  {
    SumIfMonotone(rows, StampedBy(intent.expiresAt), Any);
    if SumIf(rows, Any) >= intent.expected {
      var k := CrossingIsCut(rows, intent.expected, now);
      if k.Timestamp() <= intent.expiresAt {
        SumIfMonotone(rows, UpTo(k), StampedBy(intent.expiresAt));
      } else {
        SumIfMonotone(rows, StampedBy(intent.expiresAt), Below(k));
      }
    }
  }

  /** Without that assumption on timestamps PAID still fixes the crossing note: it is stamped at or
      before expiry, and everything up to its place on chain covers the expected amount. */
  lemma PaidCrossing(intent: Intent, rows: seq<Settlement>, now: nat) returns (k: Settlement)
    requires intent.expected > 0 && SumIf(rows, Any) >= intent.expected
    ensures Cut(rows, intent.expected, k)
    ensures StatusOf(intent, rows, SumIf(rows, Any), now)
         == if k.Timestamp() <= intent.expiresAt then PAID else PAID_LATE
  {
    k := CrossingIsCut(rows, intent.expected, now);
  }
}
