/** Choosing a Broadcaster quote, and keeping to it: tools/ppops-payer/src/broadcaster/session.ts. */
module BroadcasterSelection {
  import opened Results
  import opened JournalModel
  import Domain

  const PAYER_TOKEN: nat := 1
  const UINT256: int := 0x1_0000_0000_0000_0000_0000_0000_0000_0000_0000_0000_0000_0000_0000_0000_0000_0000

  /** A quote whose fields have the expected JavaScript types. */
  datatype Quote = Quote(
    broadcaster: RailgunAddress,
    addressValid: bool,
    token: nat,
    feesID: nat,
    feesIDPrintable: bool,
    feePerUnitGas: FeeText,
    expiration: int,
    availableWallets: int,
    reliability: Option<real>)
  {
    function Fingerprint(): QuoteFingerprint { QuoteFingerprint(broadcaster, token, feesID, feePerUnitGas, expiration) }
  }

  datatype Candidate = Malformed | Quoted(quote: Quote)

  /** The session's limits, and the order of digests that the last comparison uses. */
  datatype Terms = Terms(minimumReliability: real, minimumQuoteValidityMs: int, rank: QuoteFingerprint -> int)

  predicate SafeInteger(n: int) { -Domain.MAX_SAFE_INTEGER <= n <= Domain.MAX_SAFE_INTEGER }

  /** `validateBroadcaster` accepts. */
  predicate ValidQuote(q: Quote, terms: Terms, now: int) {
    && q.token == PAYER_TOKEN
    && q.addressValid
    && SafeInteger(q.expiration) && q.expiration >= now + terms.minimumQuoteValidityMs
    && SafeInteger(q.availableWallets) && q.availableWallets >= 1
    && q.reliability.Some? && terms.minimumReliability <= q.reliability.value <= 1.0
    && q.feesIDPrintable
    && q.feePerUnitGas.Amount? && 0 < q.feePerUnitGas.value < UINT256
  }

  /** A quote that has passed validation. */
  predicate Priced(q: Quote) { q.feePerUnitGas.Amount? && q.reliability.Some? }

  type PricedQuote = q: Quote | Priced(q)
    witness Quote(0, true, 0, 0, true, Amount(1, 0), 0, 1, Some(1.0))

  predicate Accepted(c: Candidate, terms: Terms, now: int) { c.Quoted? && ValidQuote(c.quote, terms, now) }

  function Validated(candidates: seq<Candidate>, terms: Terms, now: int): (r: seq<PricedQuote>)
    ensures forall q :: q in r <==> Quoted(q) in candidates && ValidQuote(q, terms, now)
  {
    if candidates == [] then []
    else
      var last := |candidates| - 1;
      var rest := Validated(candidates[..last], terms, now);
      assert candidates == candidates[..last] + [candidates[last]];
      if Accepted(candidates[last], terms, now) then rest + [candidates[last].quote] else rest
  }

  /** `proofCompatibleQuote` */
  predicate ProofCompatible(candidate: PricedQuote, expected: PricedQuote) {
    && candidate.broadcaster == expected.broadcaster
    && candidate.token == expected.token
    && candidate.feePerUnitGas.value == expected.feePerUnitGas.value
  }

  function First(qs: seq<PricedQuote>, wanted: PricedQuote -> bool): (r: Option<PricedQuote>)
    ensures r.Some? ==> r.value in qs && wanted(r.value)
    ensures r.None? ==> forall q <- qs :: !wanted(q)
  {
    if |qs| == 0 then None
    else if wanted(qs[0]) then Some(qs[0])
    else First(qs[1..], wanted)
  }

  function SelectFrom(qs: seq<PricedQuote>, expected: PricedQuote): Option<PricedQuote> {
    var same := First(qs, (q: PricedQuote) => q.Fingerprint() == expected.Fingerprint());
    if same.Some? then same else First(qs, (q: PricedQuote) => ProofCompatible(q, expected))
  }

  /** `selectSubmissionBroadcaster` */
  function SelectSubmission(
    candidates: seq<Candidate>, expected: PricedQuote, terms: Terms, now: int): Option<PricedQuote> {
    SelectFrom(Validated(candidates, terms, now), expected)
  }

  /** The loop that validates candidates one by one. */
  method ValidateAll(candidates: seq<Candidate>, terms: Terms, now: int) returns (r: seq<PricedQuote>)
    ensures r == Validated(candidates, terms, now)
  {
    r := [];
    for i := 0 to |candidates|
      invariant r == Validated(candidates[..i], terms, now)
    {
      assert candidates[..i + 1][..i] == candidates[..i];
      if Accepted(candidates[i], terms, now) { r := r + [candidates[i].quote]; }
    }
    assert candidates[..|candidates|] == candidates;
  }

  /** What re-selection guarantees: a live quote that pays the same Broadcaster, in the same token, at the same
      rate, so the proof already made still fits it; the very same quote if that one is still live; and nothing
      only if no live quote fits. */
  lemma SelectionKeepsProof(candidates: seq<Candidate>, expected: PricedQuote, terms: Terms, now: int)
    ensures var r := SelectSubmission(candidates, expected, terms, now);
            && (r.Some? ==> Quoted(r.value) in candidates && ValidQuote(r.value, terms, now)
                            && ProofCompatible(r.value, expected))
            && (r.None? <==> forall q: PricedQuote ::
                               Quoted(q) in candidates && ValidQuote(q, terms, now) ==> !ProofCompatible(q, expected))
            && ((exists q: PricedQuote :: Quoted(q) in candidates && ValidQuote(q, terms, now)
                                          && q.Fingerprint() == expected.Fingerprint())
                ==> r.Some? && r.value.Fingerprint() == expected.Fingerprint())
  {
    var qs := Validated(candidates, terms, now);
    assert forall q <- qs :: q.Fingerprint() == expected.Fingerprint() ==> ProofCompatible(q, expected);
  }

  // ---- Discovery --------------------------------------------------------------------------------

  /** `compareDiscoverableBroadcasters` puts the first strictly before the second. */
  predicate Before(a: PricedQuote, b: PricedQuote, terms: Terms) {
    if a.feePerUnitGas.value != b.feePerUnitGas.value then a.feePerUnitGas.value < b.feePerUnitGas.value
    else if a.reliability.value != b.reliability.value then a.reliability.value > b.reliability.value
    else terms.rank(a.Fingerprint()) < terms.rank(b.Fingerprint())
  }

  function Eligible(qs: seq<PricedQuote>, excluded: set<RailgunAddress>): (r: seq<PricedQuote>)
    ensures forall q :: q in r <==> q in qs && q.broadcaster !in excluded
  {
    if |qs| == 0 then []
    else if qs[0].broadcaster in excluded then Eligible(qs[1..], excluded)
    else [qs[0]] + Eligible(qs[1..], excluded)
  }

  function InsertQuote(q: PricedQuote, sorted: seq<PricedQuote>, terms: Terms): (r: seq<PricedQuote>)
    ensures |r| == |sorted| + 1
    ensures forall x :: x in r <==> x == q || x in sorted
  {
    if |sorted| == 0 || !Before(sorted[0], q, terms) then [q] + sorted
    else [sorted[0]] + InsertQuote(q, sorted[1..], terms)
  }

  /** A stable sort. */
  function SortQuotes(qs: seq<PricedQuote>, terms: Terms): (r: seq<PricedQuote>)
    ensures |r| == |qs|
    ensures forall x :: x in r <==> x in qs
  {
    if |qs| == 0 then [] else InsertQuote(qs[0], SortQuotes(qs[1..], terms), terms)
  }

  /** The quote that `selectDiscoverableBroadcaster` selects. */
  function Discover(
    candidates: seq<Candidate>, excluded: set<RailgunAddress>, terms: Terms, now: int): Option<PricedQuote> {
    var sorted := SortQuotes(Eligible(Validated(candidates, terms, now), excluded), terms);
    if |sorted| == 0 then None else Some(sorted[0])
  }

  lemma BeforeIsTransitive(a: PricedQuote, b: PricedQuote, c: PricedQuote, terms: Terms)
    ensures Before(a, b, terms) && Before(b, c, terms) ==> Before(a, c, terms)
    ensures !Before(b, a, terms) && !Before(c, b, terms) ==> !Before(c, a, terms)
  {
  }

  ghost predicate Least(q: PricedQuote, qs: seq<PricedQuote>, terms: Terms) { forall x <- qs :: !Before(x, q, terms) }

  lemma {:induction false} SortPutsLeastFirst(qs: seq<PricedQuote>, terms: Terms)
    requires qs != []
    ensures Least(SortQuotes(qs, terms)[0], qs, terms)
  {
    var rest := SortQuotes(qs[1..], terms);
    var r := SortQuotes(qs, terms);
    if |rest| > 0 {
      SortPutsLeastFirst(qs[1..], terms);
      forall x <- qs ensures !Before(x, r[0], terms) {
        assert x == qs[0] || x in qs[1..];
        BeforeIsTransitive(qs[0], rest[0], x, terms);
      }
    }
  }

  /** Discovery selects a valid quote of a Broadcaster that has not been tried, and none of those is cheaper, or
      equally cheap and more reliable; it selects nothing only if there is no such quote. */
  lemma DiscoverIsBest(candidates: seq<Candidate>, excluded: set<RailgunAddress>, terms: Terms, now: int)
    ensures var r := Discover(candidates, excluded, terms, now);
            && (r.Some? ==>
                  && Quoted(r.value) in candidates && ValidQuote(r.value, terms, now)
                       && r.value.broadcaster !in excluded
                  && forall q: PricedQuote |
                       Quoted(q) in candidates && ValidQuote(q, terms, now) && q.broadcaster !in excluded ::
                       && r.value.feePerUnitGas.value <= q.feePerUnitGas.value
                       && (r.value.feePerUnitGas.value == q.feePerUnitGas.value ==>
                             r.value.reliability.value >= q.reliability.value))
            && (r.None? ==>
                  forall q: PricedQuote | Quoted(q) in candidates && ValidQuote(q, terms, now) ::
                      q.broadcaster in excluded)
  {
    var qs := Eligible(Validated(candidates, terms, now), excluded);
    if qs != [] { SortPutsLeastFirst(qs, terms); }
    forall q: PricedQuote | Quoted(q) in candidates && ValidQuote(q, terms, now) && q.broadcaster !in excluded
      ensures q in qs
    {
    }
  }

  // ---- In the fields of the quotes --------------------------------------------------------------

  /** A quote that may be used at this time: in the payer's token, from a valid address, with a well-formed id, a
      wallet that is free, a fee rate that fits a uint256, a lifetime of at least the minimum and a reliability
      between the minimum and one. */
  ghost predicate Offered(q: Quote, terms: Terms, now: int) {
    && q.token == 1 && q.addressValid && q.feesIDPrintable
    && 1 <= q.availableWallets <= 9_007_199_254_740_991
    && q.feePerUnitGas.Amount? && 1 <= q.feePerUnitGas.value <= UINT256_MAX
    && -9_007_199_254_740_991 <= q.expiration <= 9_007_199_254_740_991
    && q.expiration - now >= terms.minimumQuoteValidityMs
    && q.reliability.Some? && q.reliability.value >= terms.minimumReliability && q.reliability.value <= 1.0
  }

  const UINT256_MAX: int := 0xffff_ffff_ffff_ffff_ffff_ffff_ffff_ffff_ffff_ffff_ffff_ffff_ffff_ffff_ffff_ffff

  /** One quote is at least as good as another: cheaper; or as cheap and more reliable; or equal in both and not later
      in the order of digests. */
  ghost predicate AsGood(a: PricedQuote, b: PricedQuote, terms: Terms) {
    var (cost, other) := (a.feePerUnitGas.value, b.feePerUnitGas.value);
    var (trust, less) := (a.reliability.value, b.reliability.value);
    && cost <= other && (cost == other ==> trust >= less)
    && (cost == other && trust == less ==> terms.rank(Digest(a)) <= terms.rank(Digest(b)))
  }

  /** What a quote's fingerprint is the digest of. */
  function Digest(q: Quote): QuoteFingerprint {
    QuoteFingerprint(q.broadcaster, q.token, q.feesID, q.feePerUnitGas, q.expiration)
  }

  lemma OfferedIff(q: Quote, terms: Terms, now: int)
    ensures ValidQuote(q, terms, now) <==> Offered(q, terms, now)
    ensures q.Fingerprint() == Digest(q)
  {
  }

  /** Discovery finds something exactly if some Broadcaster that was not tried offers a quote, and then one that is as
      good as every such quote. */
  lemma DiscoveredIff(candidates: seq<Candidate>, excluded: set<RailgunAddress>, terms: Terms, now: int)
    ensures var r := Discover(candidates, excluded, terms, now);
            && (r.Some? <==> exists q: PricedQuote ::
                  Quoted(q) in candidates && Offered(q, terms, now) && q.broadcaster !in excluded)
            && (r.Some? ==>
                  && Quoted(r.value) in candidates && Offered(r.value, terms, now) && r.value.broadcaster !in excluded
                  && forall q: PricedQuote |
                       Quoted(q) in candidates && Offered(q, terms, now) && q.broadcaster !in excluded ::
                       AsGood(r.value, q, terms))
  {
    var qs := Eligible(Validated(candidates, terms, now), excluded);
    if qs != [] { SortPutsLeastFirst(qs, terms); }
    forall q: PricedQuote
      ensures q in qs <==> Quoted(q) in candidates && Offered(q, terms, now) && q.broadcaster !in excluded
    {
      OfferedIff(q, terms, now);
    }
    var r := Discover(candidates, excluded, terms, now);
    if r.Some? {
      forall q <- qs ensures AsGood(r.value, q, terms) {
        OfferedIff(q, terms, now);
        OfferedIff(r.value, terms, now);
        assert !Before(q, r.value, terms);
      }
    }
  }

  /** The proof made for one quote serves another: same Broadcaster, token and rate, however the rate is spelled. */
  ghost predicate Serves(a: PricedQuote, b: PricedQuote) {
    a.broadcaster == b.broadcaster && a.token == b.token && a.feePerUnitGas.value == b.feePerUnitGas.value
  }

  /** Re-selection finds something exactly if some quote on offer serves the proof; the same quote, if that is on
      offer. */
  lemma ReselectedIff(candidates: seq<Candidate>, expected: PricedQuote, terms: Terms, now: int)
    ensures var r := SelectSubmission(candidates, expected, terms, now);
            && (r.Some? <==> exists q: PricedQuote ::
                  Quoted(q) in candidates && Offered(q, terms, now) && Serves(q, expected))
            && (r.Some? ==> Quoted(r.value) in candidates && Offered(r.value, terms, now) && Serves(r.value, expected))
            && ((exists q: PricedQuote ::
                   Quoted(q) in candidates && Offered(q, terms, now) && Digest(q) == Digest(expected))
                ==> r.Some? && Digest(r.value) == Digest(expected))
  {
    SelectionKeepsProof(candidates, expected, terms, now);
    forall q: PricedQuote
      ensures ValidQuote(q, terms, now) <==> Offered(q, terms, now)
      ensures q.Fingerprint() == Digest(q) && (ProofCompatible(q, expected) <==> Serves(q, expected))
    {
      OfferedIff(q, terms, now);
    }
    hide ValidQuote, Offered, SelectSubmission, ProofCompatible, Serves;
  }

  datatype Discovery = Discovery(
    selected: Option<PricedQuote>, validQuotes: nat, unique: nat, eligible: nat, excluded: nat)

  function Addresses(qs: seq<PricedQuote>): set<RailgunAddress> { set q <- qs :: q.broadcaster }

  /** The Broadcasters with a quote that validates. */
  ghost function Bidders(candidates: seq<Candidate>, terms: Terms, now: int): set<RailgunAddress> {
    set c <- candidates | Accepted(c, terms, now) :: c.quote.broadcaster
  }

  /** The places of the candidates that validate. */
  ghost function Valid(candidates: seq<Candidate>, terms: Terms, now: int): set<nat> {
    set i: nat | i < |candidates| && Accepted(candidates[i], terms, now)
  }

  lemma ValidOfLast(candidates: seq<Candidate>, terms: Terms, now: int)
    requires candidates != []
    ensures var last := |candidates| - 1;
            |Valid(candidates, terms, now)|
            == |Valid(candidates[..last], terms, now)| + if Accepted(candidates[last], terms, now) then 1 else 0
  {
    hide Accepted;
    var last := |candidates| - 1;
    assert Valid(candidates, terms, now)
        == Valid(candidates[..last], terms, now) + if Accepted(candidates[last], terms, now) then {last} else {};
  }

  lemma {:induction false} ValidatedCount(candidates: seq<Candidate>, terms: Terms, now: int)
    ensures |Validated(candidates, terms, now)| == |Valid(candidates, terms, now)|
  {
    if candidates != [] {
      ValidatedCount(candidates[..|candidates| - 1], terms, now);
      ValidOfLast(candidates, terms, now);
      hide Valid, ValidQuote;
    }
  }

  lemma BiddersAreAddresses(candidates: seq<Candidate>, excluded: set<RailgunAddress>, terms: Terms, now: int)
    ensures Addresses(Validated(candidates, terms, now)) == Bidders(candidates, terms, now)
    ensures Addresses(Eligible(Validated(candidates, terms, now), excluded))
            == Bidders(candidates, terms, now) - excluded
  {
    var valid := Validated(candidates, terms, now);
    forall a ensures a in Addresses(valid) <==> a in Bidders(candidates, terms, now) {
      if a in Bidders(candidates, terms, now) {
        var c :| c in candidates && Accepted(c, terms, now) && c.quote.broadcaster == a;
        var q: PricedQuote := c.quote;
        assert q in valid;
      }
      if a in Addresses(valid) {
        var q :| q in valid && q.broadcaster == a;
        assert Accepted(Quoted(q), terms, now) && Quoted(q) in candidates;
      }
    }
    forall a ensures a in Addresses(Eligible(valid, excluded)) <==> a in Addresses(valid) && a !in excluded {
      if a in Addresses(valid) && a !in excluded {
        var q :| q in valid && q.broadcaster == a;
        assert q in Eligible(valid, excluded);
      }
    }
  }

  /** `selectDiscoverableBroadcaster` */
  method SelectDiscoverable(candidates: seq<Candidate>, excluded: set<RailgunAddress>, terms: Terms, now: int)
    returns (r: Discovery)
    ensures r.selected == Discover(candidates, excluded, terms, now)
    ensures r.validQuotes == |Valid(candidates, terms, now)|
    ensures r.eligible == |Bidders(candidates, terms, now) - excluded|
    ensures r.excluded == |Bidders(candidates, terms, now) * excluded|
    ensures r.unique == r.eligible + r.excluded <= r.validQuotes
    ensures r.selected.Some? <==> r.eligible > 0
  {
    var valid := ValidateAll(candidates, terms, now);
    var unique := Addresses(valid);
    var eligible := Eligible(valid, excluded);
    var sorted := SortQuotes(eligible, terms);
    r := Discovery(if |sorted| == 0 then None else Some(sorted[0]), |valid|, |unique|,
                   |Addresses(eligible)|, |unique * excluded|);
    BiddersAreAddresses(candidates, excluded, terms, now);
    ValidatedCount(candidates, terms, now);
    assert unique == Addresses(eligible) + unique * excluded;
    AddressesBounded(valid);
    if |eligible| > 0 { assert eligible[0].broadcaster in Addresses(eligible); }
  }

  lemma {:induction false} AddressesBounded(qs: seq<PricedQuote>)
    ensures |Addresses(qs)| <= |qs|
  {
    if |qs| > 0 {
      AddressesBounded(qs[1..]);
      assert Addresses(qs) == {qs[0].broadcaster} + Addresses(qs[1..]);
    }
  }

  /** `selectSubmissionBroadcaster` */
  method SelectSubmissionBroadcaster(candidates: seq<Candidate>, expected: PricedQuote, terms: Terms, now: int)
    returns (r: Option<PricedQuote>)
    ensures r == SelectSubmission(candidates, expected, terms, now)
  {
    var valid := ValidateAll(candidates, terms, now);
    r := SelectFrom(valid, expected);
  }
}
