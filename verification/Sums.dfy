/** Sums of settlement amounts, as multisets see them: independent of the order of the rows. */
module Sums {
  import opened Domain
  import opened Sequences

  function SumIf(rows: seq<Settlement>, p: Settlement -> bool): nat {
    if rows == [] then 0
    else (if p(rows[0]) then rows[0].Amount() else 0) + SumIf(rows[1..], p)
  }

  lemma {:induction false} SumIfConcat(a: seq<Settlement>, b: seq<Settlement>, p: Settlement -> bool)
    ensures SumIf(a + b, p) == SumIf(a, p) + SumIf(b, p)
  {
    if a == [] {
      assert a + b == b;
    } else {
      assert (a + b)[1..] == a[1..] + b;
      SumIfConcat(a[1..], b, p);
    }
  }

  /** Removing the row at `k` takes exactly its contribution away. */
  lemma SumIfRemove(rows: seq<Settlement>, k: nat, p: Settlement -> bool)
    requires k < |rows|
    ensures SumIf(rows, p)
         == SumIf(rows[..k] + rows[k + 1..], p) + (if p(rows[k]) then rows[k].Amount() else 0)
  {
    assert rows == rows[..k] + ([rows[k]] + rows[k + 1..]);
    SumIfConcat(rows[..k], [rows[k]] + rows[k + 1..], p);
    assert ([rows[k]] + rows[k + 1..])[1..] == rows[k + 1..];
    SumIfConcat(rows[..k], rows[k + 1..], p);
  }

  lemma {:induction false} SumIfPermutation(a: seq<Settlement>, b: seq<Settlement>, p: Settlement -> bool)
    requires multiset(a) == multiset(b)
    ensures SumIf(a, p) == SumIf(b, p)
  {
    if a == [] {
      assert |b| == |multiset(b)| == |multiset(a)| == 0;
    } else {
      assert a[0] in multiset(b);
      var k :| 0 <= k < |b| && b[k] == a[0];
      RemoveShared(a, b, k);
      SumIfPermutation(a[1..], b[..k] + b[k + 1..], p);
      SumIfRemove(b, k, p);
    }
  }

  lemma {:induction false} SumIfMonotone(rows: seq<Settlement>, p: Settlement -> bool, q: Settlement -> bool)
    requires forall r <- rows :: p(r) ==> q(r)
    ensures SumIf(rows, p) <= SumIf(rows, q)
  {
    if rows != [] { SumIfMonotone(rows[1..], p, q); }
  }

  /** Conservation: two disjoint classes of rows sum to their union. */
  lemma {:induction false} SumIfSplit(rows: seq<Settlement>, p: Settlement -> bool, q: Settlement -> bool,
                                      whole: Settlement -> bool)
    requires forall r <- rows :: !(p(r) && q(r)) && (whole(r) <==> p(r) || q(r))
    ensures SumIf(rows, whole) == SumIf(rows, p) + SumIf(rows, q)
  {
    if rows != [] { SumIfSplit(rows[1..], p, q, whole); }
  }

  /** A positive amount in the class makes the sum positive, and conversely. */
  lemma {:induction false} SumIfZero(rows: seq<Settlement>, p: Settlement -> bool)
    requires forall r <- rows :: r.Amount() > 0
    ensures SumIf(rows, p) == 0 <==> forall r <- rows :: !p(r)
  {
    if rows != [] {
      SumIfZero(rows[1..], p);
      assert forall r <- rows :: r == rows[0] || r in rows[1..];
    }
  }
}
