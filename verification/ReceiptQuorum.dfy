/** The receipts the payer believes: tools/ppops-payer/src/railgun/rpc-quorum.ts. */
module ReceiptQuorum {
  import opened Domain
  import opened Results
  import opened Quorum

  function RequiredAgreement(providers: nat): nat {
    if providers / 2 + 1 >= 2 then providers / 2 + 1 else 2
  }

  /** What the payer compares of a receipt. */
  datatype Identity = ReceiptIdentity(hash: TransactionHash, blockNumber: nat, blockHash: nat, succeeded: bool)

  function IdentityOf(r: Receipt): Identity
    requires r.status.Some?
  {
    ReceiptIdentity(r.hash, r.blockNumber, r.blockHash, r.status == Some(1))
  }

  predicate Admissible(hash: TransactionHash, r: Receipt) {
    r.hash == hash && 1 <= r.blockNumber <= MAX_SAFE_INTEGER && r.status in {Some(0), Some(1)}
  }

  /** Responses that do not name this transaction with a plausible outcome are as good as none. */
  function Votes(hash: TransactionHash, responses: seq<Option<Receipt>>): (r: seq<Option<Identity>>)
    ensures |r| == |responses|
    ensures forall i | 0 <= i < |r| ::
              r[i] == if responses[i].Some? && Admissible(hash, responses[i].value)
                      then Some(IdentityOf(responses[i].value)) else None
  {
    if responses == [] then []
    else
      var last := |responses| - 1;
      Votes(hash, responses[..last])
      + [if responses[last].Some? && Admissible(hash, responses[last].value)
         then Some(IdentityOf(responses[last].value)) else None]
  }

  /** `selectReceiptQuorum` with the default agreement. */
  function SelectReceipt(hash: TransactionHash, responses: seq<Option<Receipt>>): Option<Identity> {
    Agreed(Votes(hash, responses), Same, RequiredAgreement(|responses|))
  }

  method SelectReceiptQuorum(hash: TransactionHash, responses: seq<Option<Receipt>>) returns (r: Option<Identity>)
    ensures r == SelectReceipt(hash, responses)
  {
    var votes := Votes(hash, responses);
    r := ConsensusValue([votes], Same, RequiredAgreement(|responses|));
  }

  /** A selected outcome was reported, for this very transaction, by at least two providers and a majority,
      among them a correct one if fewer than the required number are faulty. */
  lemma SelectedReceiptIsVouchedFor(hash: TransactionHash, responses: seq<Option<Receipt>>, faulty: set<nat>)
    returns (i: nat)
    requires SelectReceipt(hash, responses).Some? && |faulty| < RequiredAgreement(|responses|)
    ensures i !in faulty && i < |responses| && responses[i].Some?
    ensures var r := SelectReceipt(hash, responses).value;
            && r.hash == hash && r.blockNumber >= 1
            && responses[i].value.hash == hash && responses[i].value.blockNumber == r.blockNumber
            && responses[i].value.status == Some(if r.succeeded then 1 else 0)
            && |Group(Votes(hash, responses), Same, r)| >= 2
            && 2 * |Group(Votes(hash, responses), Same, r)| > |responses|
  {
    var r := SelectReceipt(hash, responses).value;
    i := QuorumHasCorrectVoter(Votes(hash, responses), Same, RequiredAgreement(|responses|), r, faulty);
  }

  /** The providers that report this outcome, for this transaction, as a receipt should. */
  ghost function Reporters(hash: TransactionHash, responses: seq<Option<Receipt>>, outcome: Identity): set<nat> {
    set i: nat | i < |responses| && responses[i].Some? && Reports(responses[i].value, hash, outcome)
  }

  predicate Reports(r: Receipt, hash: TransactionHash, outcome: Identity) {
    && r.hash == hash && r.hash == outcome.hash
    && r.blockNumber == outcome.blockNumber && 1 <= r.blockNumber <= 9_007_199_254_740_991
    && r.blockHash == outcome.blockHash && r.status == Some(if outcome.succeeded then 1 else 0)
  }

  lemma ReportersVote(hash: TransactionHash, responses: seq<Option<Receipt>>, outcome: Identity)
    ensures |Group(Votes(hash, responses), Same, outcome)| == |Reporters(hash, responses, outcome)|
  {
    GroupCountsVoters(Votes(hash, responses), Same, outcome);
    assert Voters(Votes(hash, responses), Same, outcome) == Reporters(hash, responses, outcome);
  }

  /** An outcome is selected if and only if at least two providers, and more than half of them, report it. */
  lemma SelectedIff(hash: TransactionHash, responses: seq<Option<Receipt>>, outcome: Identity)
    ensures SelectReceipt(hash, responses) == Some(outcome)
       <==> |Reporters(hash, responses, outcome)| >= 2 && 2 * |Reporters(hash, responses, outcome)| > |responses|
  {
    ReportersVote(hash, responses, outcome);
    hide Reporters, Reports, Votes, Group, Agreed, IdentityOf, Admissible;
    var votes, required := Votes(hash, responses), RequiredAgreement(|responses|);
    if |Group(votes, Same, outcome)| >= required { AgreedIff(votes, Same, required, outcome); }
  }
}
