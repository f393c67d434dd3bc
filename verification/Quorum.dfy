/** Majority agreement among providers: `consensusValue` and `consensusHeight` of src/railgun/rpc-quorum.ts. */
module Quorum {
  import opened Domain
  import opened Results

  /** A transaction receipt, with the fields that agreement is about. */
  datatype Receipt = Receipt(
    hash: TransactionHash, blockNumber: nat, blockHash: nat, index: nat, status: Option<nat>)

  /** Receipts, blocks and identities hold just what is compared of an answer, so each is its own key. */
  function Same<T>(x: T): T { x }

  // ---- Counting votes ---------------------------------------------------------------------------

  /** The values returned with key `k`, in provider order; a provider that failed returns nothing. */
  function Group<V, K(==)>(results: seq<Option<V>>, keyFor: V -> K, k: K): (g: seq<V>)
    ensures |g| <= |results|
    ensures forall v <- g :: keyFor(v) == k
  {
    if results == [] then []
    else
      var last := |results| - 1;
      Group(results[..last], keyFor, k)
      + if results[last].Some? && keyFor(results[last].value) == k then [results[last].value] else []
  }

  ghost predicate Voted<V, K>(results: seq<Option<V>>, keyFor: V -> K, k: K, i: nat) {
    i < |results| && results[i].Some? && keyFor(results[i].value) == k
  }

  ghost function Voters<V, K>(results: seq<Option<V>>, keyFor: V -> K, k: K): set<nat> {
    set i: nat | i < |results| && Voted(results, keyFor, k, i)
  }

  lemma {:induction false} GroupCountsVoters<V, K>(results: seq<Option<V>>, keyFor: V -> K, k: K)
    ensures |Group(results, keyFor, k)| == |Voters(results, keyFor, k)|
  {
    if results != [] {
      var last := |results| - 1;
      GroupCountsVoters(results[..last], keyFor, k);
      assert Voters(results, keyFor, k)
          == Voters(results[..last], keyFor, k) + if Voted(results, keyFor, k, last) then {last} else {};
    }
  }

  lemma SubsetBound(a: set<nat>, n: nat)
    requires forall i <- a :: i < n
    ensures |a| <= n
    decreases n
  {
    if n > 0 { SubsetBound(a - {n - 1}, n - 1); }
  }

  /** Two different keys can never both reach a majority. */
  lemma MajorityIsUnique<V, K>(results: seq<Option<V>>, keyFor: V -> K, quorum: nat, j: K, k: K)
    requires 2 * quorum > |results|
    requires |Group(results, keyFor, j)| >= quorum && |Group(results, keyFor, k)| >= quorum
    ensures j == k
  {
    GroupCountsVoters(results, keyFor, j);
    GroupCountsVoters(results, keyFor, k);
    if j != k {
      var a, b := Voters(results, keyFor, j), Voters(results, keyFor, k);
      assert a !! b;
      SubsetBound(a + b, |results|);
    }
  }

  /** With fewer faulty providers than the quorum, a key that reaches it was returned by a correct one. */
  lemma QuorumHasCorrectVoter<V, K>(results: seq<Option<V>>, keyFor: V -> K, quorum: nat, k: K, faulty: set<nat>)
    returns (i: nat)
    requires |Group(results, keyFor, k)| >= quorum > |faulty|
    ensures i !in faulty && Voted(results, keyFor, k, i)
  {
    GroupCountsVoters(results, keyFor, k);
    var voters := Voters(results, keyFor, k);
    if voters <= faulty { SmallerSubset(voters, faulty); }
    i :| i in voters && i !in faulty;
  }

  lemma SmallerSubset(a: set<nat>, b: set<nat>)
    requires a <= b
    ensures |a| <= |b|
  {
    assert b == a + (b - a);
  }

  // ---- One reading ------------------------------------------------------------------------------

  /** The first value whose key reaches the quorum. */
  function Agreed<V, K(==)>(results: seq<Option<V>>, keyFor: V -> K, quorum: nat): (r: Option<V>)
    ensures r.Some? ==> |Group(results, keyFor, keyFor(r.value))| >= quorum
    ensures r.None? ==> forall i | 0 <= i < |results| && results[i].Some? ::
                          |Group(results, keyFor, keyFor(results[i].value))| < quorum
  {
    AgreedFrom(results, keyFor, quorum, 0)
  }

  function AgreedFrom<V, K(==)>(results: seq<Option<V>>, keyFor: V -> K, quorum: nat, from: nat): (r: Option<V>)
    requires from <= |results|
    ensures r.Some? ==> |Group(results, keyFor, keyFor(r.value))| >= quorum
    ensures r.None? ==> forall i | from <= i < |results| && results[i].Some? ::
                          |Group(results, keyFor, keyFor(results[i].value))| < quorum
    decreases |results| - from
  {
    if from == |results| then None
    else if results[from].Some? && |Group(results, keyFor, keyFor(results[from].value))| >= quorum then results[from]
    else AgreedFrom(results, keyFor, quorum, from + 1)
  }

  /** A reading agrees exactly when some key reaches the quorum. */
  lemma AgreedIff<V, K>(results: seq<Option<V>>, keyFor: V -> K, quorum: nat, k: K)
    requires quorum > 0 && |Group(results, keyFor, k)| >= quorum
    ensures Agreed(results, keyFor, quorum).Some?
    ensures 2 * quorum > |results| ==> keyFor(Agreed(results, keyFor, quorum).value) == k
  {
    GroupCountsVoters(results, keyFor, k);
    var i :| i in Voters(results, keyFor, k);
    if 2 * quorum > |results| {
      MajorityIsUnique(results, keyFor, quorum, k, keyFor(Agreed(results, keyFor, quorum).value));
    }
  }

  /** The agreed value is the first of its group. */
  lemma {:induction false} AgreedIsFirst<V, K>(results: seq<Option<V>>, keyFor: V -> K, quorum: nat, k: K)
    requires quorum > 0 && 2 * quorum > |results| && |Group(results, keyFor, k)| >= quorum
    ensures Agreed(results, keyFor, quorum) == Some(Group(results, keyFor, k)[0])
  {
    AgreedFromIsFirst(results, keyFor, quorum, k, 0);
    assert results[..0] == [];
  }

  lemma {:induction false} AgreedFromIsFirst<V, K>(
    results: seq<Option<V>>, keyFor: V -> K, quorum: nat, k: K, from: nat)
    requires quorum > 0 && 2 * quorum > |results| && |Group(results, keyFor, k)| >= quorum
    requires from <= |results| && Group(results[..from], keyFor, k) == []
    ensures AgreedFrom(results, keyFor, quorum, from) == Some(Group(results, keyFor, k)[0])
    decreases |results| - from
  {
    assert results[..|results|] == results;
    assert from < |results|;
    assert results[..from + 1][..from] == results[..from];
    if Voted(results, keyFor, k, from) {
      GroupPrefix(results, keyFor, k, from + 1);
    } else {
      if results[from].Some? && |Group(results, keyFor, keyFor(results[from].value))| >= quorum {
        MajorityIsUnique(results, keyFor, quorum, k, keyFor(results[from].value));
      }
      AgreedFromIsFirst(results, keyFor, quorum, k, from + 1);
    }
  }

  lemma {:induction false} GroupPrefix<V, K>(results: seq<Option<V>>, keyFor: V -> K, k: K, n: nat)
    requires n <= |results|
    ensures Group(results[..n], keyFor, k) <= Group(results, keyFor, k)
    decreases |results| - n
  {
    if n == |results| {
      assert results[..n] == results;
    } else {
      GroupPrefix(results, keyFor, k, n + 1);
      assert results[..n + 1][..n] == results[..n];
    }
  }

  // ---- consensusValue ---------------------------------------------------------------------------

  /** The attempts in turn: a later one is read only when the earlier ones did not agree. */
  function FirstAgreed<V, K(==)>(attempts: seq<seq<Option<V>>>, keyFor: V -> K, quorum: nat): Option<V> {
    if attempts == [] then None
    else
      var r := Agreed(attempts[0], keyFor, quorum);
      if r.Some? then r else FirstAgreed(attempts[1..], keyFor, quorum)
  }

  /** What the attempts agree on: the value of the first attempt that agrees on one. */
  lemma {:induction false} FirstAgreedIff<V(!new), K>(attempts: seq<seq<Option<V>>>, keyFor: V -> K, quorum: nat)
    ensures match FirstAgreed(attempts, keyFor, quorum)
            case None => forall a: nat | a < |attempts| :: Agreed(attempts[a], keyFor, quorum).None?
            case Some(v) => exists a: nat :: a < |attempts| && Agreed(attempts[a], keyFor, quorum) == Some(v)
                              && forall b: nat | b < a :: Agreed(attempts[b], keyFor, quorum).None?
  {
    if attempts != [] && Agreed(attempts[0], keyFor, quorum).None? {
      FirstAgreedIff(attempts[1..], keyFor, quorum);
      assert forall a: nat | 0 < a < |attempts| :: attempts[a] == attempts[1..][a - 1];
      if FirstAgreed(attempts, keyFor, quorum).Some? {
        var a: nat :| a < |attempts[1..]|
          && Agreed(attempts[1..][a], keyFor, quorum) == FirstAgreed(attempts, keyFor, quorum)
          && forall b: nat | b < a :: Agreed(attempts[1..][b], keyFor, quorum).None?;
        assert attempts[a + 1] == attempts[1..][a];
      }
    }
  }

  /** The `groups` map after some of the results. */
  ghost predicate Grouped<V(!new), K(!new)>(groups: map<K, seq<V>>, results: seq<Option<V>>, keyFor: V -> K) {
    forall k: K :: if k in groups then groups[k] == Group(results, keyFor, k) != [] else Group(results, keyFor, k) == []
  }

  lemma GroupedStep<V(!new), K(!new)>(
    groups: map<K, seq<V>>, results: seq<Option<V>>, keyFor: V -> K, result: Option<V>)
    requires Grouped(groups, results, keyFor)
    ensures result.None? ==> Grouped(groups, results + [result], keyFor)
    ensures result.Some? ==>
              var key := keyFor(result.value);
              Grouped(groups[key := (if key in groups then groups[key] else []) + [result.value]], results + [result],
                  keyFor)
  {
    assert (results + [result])[..|results|] == results;
  }

  /** The longest group, as sorting by length finds it. */
  method Longest<V, K(==)>(groups: map<K, seq<V>>) returns (winner: Option<K>)
    ensures winner.None? <==> groups == map[]
    ensures winner.Some? ==> winner.value in groups && forall k <- groups :: |groups[k]| <= |groups[winner.value]|
  {
    winner := None;
    var rest := groups.Keys;
    while rest != {}
      invariant rest <= groups.Keys
      invariant winner.None? <==> rest == groups.Keys
      invariant winner.Some? ==> winner.value in groups
                                 && forall k <- groups :: k !in rest ==> |groups[k]| <= |groups[winner.value]|
      decreases |rest|
    {
      var k :| k in rest;
      rest := rest - {k};
      if winner.None? || |groups[k]| > |groups[winner.value]| { winner := Some(k); }
    }
  }

  lemma FirstAgreedFrom<V, K>(attempts: seq<seq<Option<V>>>, keyFor: V -> K, quorum: nat, k: nat)
    requires k < |attempts|
    ensures FirstAgreed(attempts[k..], keyFor, quorum)
         == if Agreed(attempts[k], keyFor, quorum).Some? then Agreed(attempts[k], keyFor, quorum)
            else FirstAgreed(attempts[k + 1..], keyFor, quorum)
  {
    assert attempts[k..][1..] == attempts[k + 1..];
  }

  /** What the longest group says about a reading. */
  lemma LongestDecides<V(!new), K(!new)>(
    groups: map<K, seq<V>>, results: seq<Option<V>>, keyFor: V -> K, quorum: nat, winner: Option<K>)
    requires quorum > 0 && 2 * quorum > |results| && Grouped(groups, results, keyFor)
    requires winner.None? <==> groups == map[]
    requires winner.Some? ==> winner.value in groups && forall k <- groups :: |groups[k]| <= |groups[winner.value]|
    ensures if winner.Some? && |groups[winner.value]| >= quorum
            then groups[winner.value] != [] && Agreed(results, keyFor, quorum) == Some(groups[winner.value][0])
            else Agreed(results, keyFor, quorum).None?
  {
    if winner.Some? && |groups[winner.value]| >= quorum {
      AgreedIsFirst(results, keyFor, quorum, winner.value);
    }
  }

  lemma NothingGrouped<V(!new), K(!new)>(keyFor: V -> K)
    ensures Grouped(map[], [], keyFor)
  {
  }

  method ConsensusValue<V(!new), K(==, !new)>(attempts: seq<seq<Option<V>>>, keyFor: V -> K, quorum: nat)
    returns (r: Option<V>)
    requires quorum > 0 && forall results <- attempts :: 2 * quorum > |results|
    ensures r == FirstAgreed(attempts, keyFor, quorum)
  {
    hide *;
    assert attempts[0..] == attempts;
    for attempt := 0 to |attempts|
      invariant FirstAgreed(attempts, keyFor, quorum) == FirstAgreed(attempts[attempt..], keyFor, quorum)
    {
      var results := attempts[attempt];
      var groups: map<K, seq<V>> := map[];
      NothingGrouped<V, K>(keyFor);
      assert results[..0] == [];
      for i := 0 to |results|
        invariant Grouped(groups, results[..i], keyFor)
      {
        GroupedStep(groups, results[..i], keyFor, results[i]);
        assert results[..i] + [results[i]] == results[..i + 1];
        if results[i].Some? {
          var key := keyFor(results[i].value);
          groups := groups[key := (if key in groups then groups[key] else []) + [results[i].value]];
        }
      }
      assert results[..|results|] == results;
      var winner := Longest(groups);
      LongestDecides(groups, results, keyFor, quorum, winner);
      FirstAgreedFrom(attempts, keyFor, quorum, attempt);
      if winner.Some? && |groups[winner.value]| >= quorum { return Some(groups[winner.value][0]); }
    }
    assert attempts[|attempts|..] == [];
    NoAttempts<V, K>(keyFor, quorum);
    return None;
  }

  lemma NoAttempts<V, K>(keyFor: V -> K, quorum: nat)
    ensures FirstAgreed([], keyFor, quorum) == None
  {
  }
}
