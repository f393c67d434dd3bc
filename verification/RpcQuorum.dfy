/** Chain heights and finality from several providers: src/railgun/rpc-quorum.ts and scanner.ts. */
module RpcQuorumModel {
  import opened Domain
  import opened Results
  import opened Sequences
  import opened Quorum

  const QUORUM_ATTEMPTS: nat := 2

  function Majority(providers: nat): nat { providers / 2 + 1 }

  /** The quorum is the least number that is more than half of the providers. */
  lemma MajorityIff(providers: nat, votes: nat)
    ensures votes >= Majority(providers) <==> 2 * votes > providers
  {
  }

  // ---- consensusHeight --------------------------------------------------------------------------

  predicate Usable(height: int) { 0 <= height <= MAX_SAFE_INTEGER }

  /** The providers whose height lies in the window that starts at `base`. */
  ghost function Window(results: seq<Option<int>>, base: int, lag: nat): set<nat> {
    set i: nat | i < |results| && results[i].Some? && 0 <= results[i].value <= MAX_SAFE_INTEGER
                   && base <= results[i].value <= base + lag
  }

  ghost predicate Reported(results: seq<Option<int>>, height: int) {
    exists i: nat :: i < |results| && results[i] == Some(height) && 0 <= height <= MAX_SAFE_INTEGER
  }

  /** `h` is the least reported height whose window holds a quorum. */
  ghost predicate LeastHeight(results: seq<Option<int>>, lag: nat, quorum: nat, h: int) {
    && Reported(results, h) && |Window(results, h, lag)| >= quorum
    && forall low: int :: Reported(results, low) && low < h ==> |Window(results, low, lag)| < quorum
  }

  ghost predicate NoHeight(results: seq<Option<int>>, lag: nat, quorum: nat) {
    forall h: int :: Reported(results, h) ==> |Window(results, h, lag)| < quorum
  }

  /** The reported heights, usable ones only, sorted. */
  function Heights(results: seq<Option<int>>): seq<nat> {
    if results == [] then []
    else
      var last := |results| - 1;
      var rest := Heights(results[..last]);
      if results[last].Some? && Usable(results[last].value) then InsertInOrder(results[last].value, rest) else rest
  }

  lemma {:induction false} HeightsAscend(results: seq<Option<int>>)
    ensures Ascending(Heights(results))
  {
    if results != [] {
      var last := |results| - 1;
      HeightsAscend(results[..last]);
      if results[last].Some? && Usable(results[last].value) {
        InsertAscending(results[last].value, Heights(results[..last]));
      }
    }
  }

  function Cluster(heights: seq<nat>, base: int, lag: nat): nat {
    if heights == [] then 0
    else Cluster(heights[1..], base, lag) + if base <= heights[0] && heights[0] - base <= lag then 1 else 0
  }

  lemma {:induction false} ClusterOfInsert(h: nat, heights: seq<nat>, base: int, lag: nat)
    ensures Cluster(InsertInOrder(h, heights), base, lag)
         == Cluster(heights, base, lag) + if base <= h && h - base <= lag then 1 else 0
  {
    if heights == [] || h <= heights[0] {
      assert ([h] + heights)[1..] == heights;
    } else {
      ClusterOfInsert(h, heights[1..], base, lag);
      var rest := InsertInOrder(h, heights[1..]);
      assert ([heights[0]] + rest)[1..] == rest;
    }
  }

  lemma WindowOfLast(results: seq<Option<int>>, base: int, lag: nat)
    requires results != []
    ensures var last := |results| - 1;
            |Window(results, base, lag)| == |Window(results[..last], base, lag)|
              + if results[last].Some? && Usable(results[last].value)
                  && base <= results[last].value <= base + lag then 1 else 0
  {
    var last := |results| - 1;
    var counted := results[last].Some? && Usable(results[last].value) && base <= results[last].value <= base + lag;
    assert Window(results, base, lag) == Window(results[..last], base, lag) + if counted then {last} else {};
  }

  lemma {:induction false} ClusterCountsWindow(results: seq<Option<int>>, base: int, lag: nat)
    ensures Cluster(Heights(results), base, lag) == |Window(results, base, lag)|
  {
    if results != [] {
      var last := |results| - 1;
      ClusterCountsWindow(results[..last], base, lag);
      WindowOfLast(results, base, lag);
      if results[last].Some? && Usable(results[last].value) {
        ClusterOfInsert(results[last].value, Heights(results[..last]), base, lag);
      }
    }
  }

  lemma ReportedByLast(results: seq<Option<int>>, h: int)
    requires results != []
    ensures var last := |results| - 1;
            Reported(results, h) <==> Reported(results[..last], h) || (results[last] == Some(h) && Usable(h))
  {
    var last := |results| - 1;
    if Reported(results, h) {
      var i: nat :| i < |results| && results[i] == Some(h) && Usable(h);
      assert i < last ==> results[..last][i] == Some(h);
    }
    if Reported(results[..last], h) {
      var i: nat :| i < last && results[..last][i] == Some(h);
      assert results[i] == Some(h);
    }
  }

  lemma {:induction false} HeightsAreReported(results: seq<Option<int>>, h: int)
    ensures h in Heights(results) <==> Reported(results, h)
  {
    if results != [] {
      var last := |results| - 1;
      HeightsAreReported(results[..last], h);
      ReportedByLast(results, h);
      hide Reported, InsertInOrder;
      assert h in Heights(results) <==> h in multiset(Heights(results));
      assert h in Heights(results[..last]) <==> h in multiset(Heights(results[..last]));
    }
  }

  /** One reading in the source's own loop: the first base, in ascending order, whose cluster suffices. */
  method HeightOfReading(results: seq<Option<int>>, lag: nat, quorum: nat) returns (h: Option<int>)
    ensures h.Some? ==> LeastHeight(results, lag, quorum, h.value)
    ensures h.None? ==> NoHeight(results, lag, quorum)
  {
    var heights := Heights(results);
    HeightsAscend(results);
    forall x: int ensures x in heights <==> Reported(results, x) { HeightsAreReported(results, x); }
    for start := 0 to |heights|
      invariant forall k | 0 <= k < start :: |Window(results, heights[k], lag)| < quorum
    {
      var base := heights[start];
      ClusterCountsWindow(results, base, lag);
      if Cluster(heights, base, lag) >= quorum {
        forall low: int | Reported(results, low) && low < base ensures |Window(results, low, lag)| < quorum {
          var k :| 0 <= k < |heights| && heights[k] == low;
        }
        return Some(base);
      }
    }
    forall x: int | Reported(results, x) ensures |Window(results, x, lag)| < quorum {
      var k :| 0 <= k < |heights| && heights[k] == x;
    }
    return None;
  }

  /** The first reading that has a height decides. */
  ghost predicate HeightOutcome(attempts: seq<seq<Option<int>>>, lag: nat, quorum: nat, h: Option<int>) {
    match h
    case Some(height) =>
      exists a: nat :: a < |attempts| && LeastHeight(attempts[a], lag, quorum, height)
                       && forall b: nat | b < a :: NoHeight(attempts[b], lag, quorum)
    case None => forall a: nat | a < |attempts| :: NoHeight(attempts[a], lag, quorum)
  }

  /** `consensusHeight` */
  method ConsensusHeight(attempts: seq<seq<Option<int>>>, lag: nat, quorum: nat) returns (h: Option<int>)
    ensures HeightOutcome(attempts, lag, quorum, h)
  {
    for a := 0 to |attempts|
      invariant forall b: nat | b < a :: NoHeight(attempts[b], lag, quorum)
    {
      h := HeightOfReading(attempts[a], lag, quorum);
      if h.Some? { return; }
    }
    return None;
  }

  /** A reading has a height exactly when some interval of the permitted width, wherever it starts, holds
      a quorum of reported heights. */
  lemma HeightIffSomeInterval(results: seq<Option<int>>, lag: nat, quorum: nat)
    requires quorum > 0
    ensures NoHeight(results, lag, quorum) <==> forall x: int :: |Window(results, x, lag)| < quorum
  {
    if x: int :| |Window(results, x, lag)| >= quorum {
      var i := LeastIn(results, Window(results, x, lag));
      var h := results[i].value;
      forall j <- Window(results, x, lag) ensures j in Window(results, h, lag) {}
      SmallerSubset(Window(results, x, lag), Window(results, h, lag));
      assert Reported(results, h);
    }
  }

  lemma {:induction false} LeastIn(results: seq<Option<int>>, s: set<nat>) returns (i: nat)
    requires s != {} && forall j <- s :: j < |results| && results[j].Some?
    ensures i in s && forall j <- s :: results[i].value <= results[j].value
    decreases |s|
  {
    var k :| k in s;
    if s == {k} {
      i := k;
    } else {
      i := LeastIn(results, s - {k});
      if results[k].value < results[i].value { i := k; }
    }
  }

  // ---- The order of the providers ---------------------------------------------------------------

  predicate InWindow(result: Option<int>, base: int, lag: nat) {
    result.Some? && Usable(result.value) && base <= result.value <= base + lag
  }

  lemma {:induction false} WindowOfConcat(a: seq<Option<int>>, b: seq<Option<int>>, base: int, lag: nat)
    ensures |Window(a + b, base, lag)| == |Window(a, base, lag)| + |Window(b, base, lag)|
  {
    if b == [] {
      assert a + b == a;
      assert Window(b, base, lag) == {};
    } else {
      var last := |b| - 1;
      assert (a + b)[..|a + b| - 1] == a + b[..last];
      WindowOfConcat(a, b[..last], base, lag);
      WindowOfLast(a + b, base, lag);
      WindowOfLast(b, base, lag);
    }
  }

  lemma WindowOfRemoved(results: seq<Option<int>>, k: nat, base: int, lag: nat)
    requires k < |results|
    ensures |Window(results, base, lag)|
         == |Window(results[..k] + results[k + 1..], base, lag)| + if InWindow(results[k], base, lag) then 1 else 0
  {
    var one := [results[k]];
    WindowOfConcat(results[..k], results[k + 1..], base, lag);
    WindowOfConcat(results[..k] + one, results[k + 1..], base, lag);
    WindowOfConcat(results[..k], one, base, lag);
    assert results == results[..k] + one + results[k + 1..];
    WindowOfLast(one, base, lag);
    assert Window(one[..0], base, lag) == {};
  }

  lemma {:induction false} WindowIfPermutation(results: seq<Option<int>>, other: seq<Option<int>>, base: int, lag: nat)
    requires multiset(results) == multiset(other)
    ensures |Window(results, base, lag)| == |Window(other, base, lag)|
  {
    if results == [] {
      assert |other| == |multiset(other)| == |multiset(results)| == 0;
    } else {
      hide Window;
      assert results[0] in multiset(other);
      var k :| 0 <= k < |other| && other[k] == results[0];
      RemoveShared(results, other, k);
      WindowIfPermutation(results[1..], other[..k] + other[k + 1..], base, lag);
      WindowOfRemoved(results, 0, base, lag);
      assert results[..0] + results[1..] == results[1..];
      WindowOfRemoved(other, k, base, lag);
    }
  }

  lemma ReportedIfPermutation(results: seq<Option<int>>, other: seq<Option<int>>, h: int)
    requires multiset(results) == multiset(other)
    ensures Reported(results, h) <==> Reported(other, h)
  {
    SameElements(results, other);
    assert Reported(results, h) <==> Some(h) in results && Usable(h);
    assert Reported(other, h) <==> Some(h) in other && Usable(h);
  }

  /** A reading's height does not depend on which provider reported what. */
  lemma HeightIgnoresOrder(results: seq<Option<int>>, other: seq<Option<int>>, lag: nat, quorum: nat)
    requires multiset(results) == multiset(other)
    ensures forall h: int :: LeastHeight(results, lag, quorum, h) <==> LeastHeight(other, lag, quorum, h)
    ensures NoHeight(results, lag, quorum) <==> NoHeight(other, lag, quorum)
  {
    forall h: int
      ensures |Window(results, h, lag)| == |Window(other, h, lag)| && (Reported(results, h) <==> Reported(other, h))
    {
      WindowIfPermutation(results, other, h, lag);
      ReportedIfPermutation(results, other, h);
    }
    hide Window, Reported;
  }

  /** The outcome of several readings is a function of what was reported in each, whoever reported it. */
  lemma HeightIsDetermined(
    attempts: seq<seq<Option<int>>>, other: seq<seq<Option<int>>>, lag: nat, quorum: nat,
    g: Option<int>, h: Option<int>)
    requires |attempts| == |other| && forall a: nat | a < |attempts| :: multiset(attempts[a]) == multiset(other[a])
    requires HeightOutcome(attempts, lag, quorum, g) && HeightOutcome(other, lag, quorum, h)
    ensures g == h
  {
    forall a: nat | a < |attempts|
      ensures NoHeight(attempts[a], lag, quorum) <==> NoHeight(other[a], lag, quorum)
      ensures forall x: int :: LeastHeight(attempts[a], lag, quorum, x) <==> LeastHeight(other[a], lag, quorum, x)
    {
      HeightIgnoresOrder(attempts[a], other[a], lag, quorum);
    }
    forall a: nat, x: int | a < |attempts| && LeastHeight(attempts[a], lag, quorum, x)
      ensures !NoHeight(attempts[a], lag, quorum)
      ensures forall y: int :: LeastHeight(attempts[a], lag, quorum, y) ==> x == y
    {
    }
    hide LeastHeight, NoHeight;
  }

  // ---- Finality ---------------------------------------------------------------------------------

  datatype Finality = FinalizedTag | Confirmations(required: nat)

  datatype ChainContext = ChainContext(latestBlock: int, finalizedBlock: Option<int>)

  /** `chainStatusFor` */
  function ChainStatusFor(mode: Finality, receipt: Receipt, context: ChainContext): ChainStatus {
    match mode
    case FinalizedTag =>
      if context.finalizedBlock.Some? && receipt.blockNumber <= context.finalizedBlock.value then FINALIZED
          else CONFIRMED
    case Confirmations(required) =>
      var confirmations := context.latestBlock - receipt.blockNumber + 1;
      if confirmations >= required then FINALIZED
      else if confirmations >= 1 then CONFIRMED
      else OBSERVED
  }

  function WhenReceiptMissing(previous: Option<ChainStatus>): ChainStatus {
    if previous == Some(FINALIZED) then REVERTED else OBSERVED
  }

  /** The status that `normalizeTXO` (no previous status) and `refreshKnownChainState` give a note. */
  function Classify(
    mode: Finality, receipt: Option<Receipt>, context: ChainContext, previous: Option<ChainStatus>): ChainStatus {
    match receipt
    case None => WhenReceiptMissing(previous)
    case Some(r) => if r.status == Some(1) then ChainStatusFor(mode, r, context) else REVERTED
  }

  // ---- Reading the chain ------------------------------------------------------------------------

  datatype Block = Block(number: nat, hash: Option<nat>, timestamp: nat)

  type BlockReadings = seq<seq<Option<Option<Block>>>>

  /** What the providers answer, in each attempt, to the requests that labelling a note needs: the latest height, the
      finalized height and the block at it, the receipt, and the block of the note, by the number that is asked for.
      Receipts and blocks may be null; a provider that fails answers nothing. */
  datatype Readings = Readings(
    latest: seq<seq<Option<int>>>, finalized: seq<seq<Option<int>>>, finalizedBlock: int -> BlockReadings,
    receipt: seq<seq<Option<Option<Receipt>>>>, block: int -> BlockReadings)

  ghost predicate ReadBy<T>(attempts: seq<seq<T>>, providers: nat) {
    |attempts| == QUORUM_ATTEMPTS && forall results <- attempts :: |results| == providers
  }

  ghost predicate ReadByAll(r: Readings, providers: nat) {
    && ReadBy(r.latest, providers) && ReadBy(r.finalized, providers) && ReadBy(r.receipt, providers)
    && forall number :: ReadBy(r.finalizedBlock(number), providers) && ReadBy(r.block(number), providers)
  }

  /** `getBlock`; None if it throws. */
  function GetBlock(attempts: BlockReadings, quorum: nat): Option<Block> {
    var block := FirstAgreed(attempts, Same, quorum);
    if block.Some? then block.value else None
  }

  /** What is recorded of a note from the chain. */
  datatype Label = Label(status: ChainStatus, blockNumber: nat, timestamp: nat)

  /** A note comes from the wallet, which names its block, or from the table, for a recheck. */
  datatype Note = FromWallet(blockNumber: nat) | FromTable(recorded: Label)
  {
    function Status(): Option<ChainStatus> { if FromTable? then Some(recorded.status) else None }
  }

  predicate Succeeded(receipt: Option<Receipt>) { receipt.Some? && receipt.value.status == Some(1) }

  /** A note from the wallet is dated in any case, a recheck only with a successful receipt. */
  predicate NeedsBlock(receipt: Option<Receipt>, note: Note) { note.FromWallet? || Succeeded(receipt) }

  /** The block that the note is given: the receipt's, where the receipt is used. */
  function BlockOf(receipt: Option<Receipt>, note: Note): nat {
    match note
    case FromWallet(blockNumber) => if receipt.Some? then receipt.value.blockNumber else blockNumber
    case FromTable(recorded) => if Succeeded(receipt) then receipt.value.blockNumber else recorded.blockNumber
  }

  ghost predicate ContextIs(mode: Finality, lag: nat, quorum: nat, r: Readings, context: ChainContext) {
    && HeightOutcome(r.latest, lag, quorum, Some(context.latestBlock))
    && if mode.FinalizedTag? then
         && context.finalizedBlock.Some? && HeightOutcome(r.finalized, lag, quorum, context.finalizedBlock)
         && GetBlock(r.finalizedBlock(context.finalizedBlock.value), quorum).Some?
       else context.finalizedBlock.None?
  }

  ghost predicate LabelIn(mode: Finality, quorum: nat, r: Readings, note: Note, context: ChainContext, mark: Label) {
    var receipt := FirstAgreed(r.receipt, Same, quorum);
    && receipt.Some?
    && mark.status == Classify(mode, receipt.value, context, note.Status())
    && mark.blockNumber == BlockOf(receipt.value, note)
    && if NeedsBlock(receipt.value, note) then
         var block := GetBlock(r.block(mark.blockNumber), quorum);
         block.Some? && mark.timestamp == block.value.timestamp
       else mark.timestamp == note.recorded.timestamp
  }

  /** The label that the readings give a note. */
  ghost predicate LabelIs(mode: Finality, lag: nat, quorum: nat, r: Readings, note: Note, mark: Label) {
    exists context :: ContextIs(mode, lag, quorum, r, context) && LabelIn(mode, quorum, r, note, context, mark)
  }

  /** `chainContext`; None if it throws. */
  method ReadContext(mode: Finality, lag: nat, providers: nat, r: Readings) returns (context: Option<ChainContext>)
    requires ReadByAll(r, providers)
    ensures forall c :: ContextIs(mode, lag, Majority(providers), r, c) <==> context == Some(c)
  {
    var quorum := Majority(providers);
    var latest := ConsensusHeight(r.latest, lag, quorum);
    OutcomeIsUnique(r.latest, lag, quorum, latest);
    if latest.None? { return None; }
    if !mode.FinalizedTag? { return Some(ChainContext(latest.value, None)); }
    var finalized := ConsensusHeight(r.finalized, lag, quorum);
    OutcomeIsUnique(r.finalized, lag, quorum, finalized);
    if finalized.None? { return None; }
    var block := ConsensusValue(r.finalizedBlock(finalized.value), Same, quorum);
    if block.None? || block.value.None? { return None; }
    return Some(ChainContext(latest.value, finalized));
  }

  lemma OutcomeIsUnique(attempts: seq<seq<Option<int>>>, lag: nat, quorum: nat, h: Option<int>)
    requires HeightOutcome(attempts, lag, quorum, h)
    ensures forall g :: HeightOutcome(attempts, lag, quorum, g) ==> g == h
  {
    forall g | HeightOutcome(attempts, lag, quorum, g) ensures g == h {
      HeightIsDetermined(attempts, attempts, lag, quorum, g, h);
    }
  }

  /** What `normalizeTXO` and `refreshKnownChainState` find out about a note; None if they throw. */
  method LabelNote(mode: Finality, lag: nat, providers: nat, r: Readings, note: Note) returns (mark: Option<Label>)
    requires ReadByAll(r, providers)
    ensures forall l :: LabelIs(mode, lag, Majority(providers), r, note, l) <==> mark == Some(l)
  {
    hide ContextIs;
    var quorum := Majority(providers);
    var context := ReadContext(mode, lag, providers, r);
    if context.None? { return None; }
    var receipt := ConsensusValue(r.receipt, Same, quorum);
    if receipt.None? { return None; }
    var status := Classify(mode, receipt.value, context.value, note.Status());
    var number := BlockOf(receipt.value, note);
    ghost var c := context.value;
    if NeedsBlock(receipt.value, note) {
      var block := ConsensusValue(r.block(number), Same, quorum);
      if block.None? || block.value.None? { return None; }
      mark := Some(Label(status, number, block.value.value.timestamp));
    } else {
      mark := Some(Label(status, number, note.recorded.timestamp));
    }
    assert LabelIn(mode, quorum, r, note, c, mark.value);
  }

  /** Whether the chain counts a successful receipt as final, under this configuration. */
  ghost predicate Settled(mode: Finality, context: ChainContext, blockNumber: nat) {
    match mode
    case FinalizedTag => context.finalizedBlock.Some? && context.finalizedBlock.value >= blockNumber
    case Confirmations(required) => context.latestBlock - blockNumber + 1 >= required
  }

  /** Whether it counts as included at all: always with the finalized tag, else with one confirmation. */
  ghost predicate Included(mode: Finality, context: ChainContext, blockNumber: nat) {
    mode.FinalizedTag? || context.latestBlock >= blockNumber
  }

  /** What each label says of the receipt and the heights that were agreed on. A failed receipt is a reversal whatever
      was known, a missing one only of a note that was final; block and time come from a receipt that counts, and a
      recheck without one leaves them as they were. */
  lemma LabelMeans(
    mode: Finality, lag: nat, quorum: nat, r: Readings, note: Note, mark: Label, context: ChainContext,
    receipt: Option<Receipt>)
    requires ContextIs(mode, lag, quorum, r, context) && LabelIs(mode, lag, quorum, r, note, mark)
    requires FirstAgreed(r.receipt, Same, quorum) == Some(receipt)
    ensures var succeeded := receipt.Some? && receipt.value.status == Some(1);
            && (mark.status == REVERTED <==>
                  if receipt.Some? then !succeeded else note.FromTable? && note.recorded.status == FINALIZED)
            && (mark.status == FINALIZED <==> succeeded && Settled(mode, context, receipt.value.blockNumber))
            && (mark.status == CONFIRMED <==>
                  && succeeded && !Settled(mode, context, receipt.value.blockNumber)
                  && Included(mode, context, receipt.value.blockNumber))
    ensures if receipt.Some? && (note.FromWallet? || receipt.value.status == Some(1))
            then mark.blockNumber == receipt.value.blockNumber
            else mark.blockNumber == if note.FromWallet? then note.blockNumber else note.recorded.blockNumber
    ensures if note.FromWallet? || (receipt.Some? && receipt.value.status == Some(1))
            then exists block: Block :: FirstAgreed(r.block(mark.blockNumber), Same, quorum) == Some(Some(block))
                                 && mark.timestamp == block.timestamp
            else mark.timestamp == note.recorded.timestamp
  {
    var other :| ContextIs(mode, lag, quorum, r, other) && LabelIn(mode, quorum, r, note, other, mark);
    ContextIsUnique(mode, lag, quorum, r, context, other);
    hide ContextIs, LabelIs, FirstAgreed;
  }

  lemma ContextIsUnique(mode: Finality, lag: nat, quorum: nat, r: Readings, a: ChainContext, b: ChainContext)
    requires ContextIs(mode, lag, quorum, r, a) && ContextIs(mode, lag, quorum, r, b)
    ensures a == b
  {
    hide HeightOutcome;
    HeightIsDetermined(r.latest, r.latest, lag, quorum, Some(a.latestBlock), Some(b.latestBlock));
    if mode.FinalizedTag? {
      HeightIsDetermined(r.finalized, r.finalized, lag, quorum, a.finalizedBlock, b.finalizedBlock);
    }
  }

  /** A context, in terms of the readings: the agreed latest height; and with the finalized tag the agreed finalized
      height, if the providers agree on a block at it. */
  lemma ContextMeans(mode: Finality, lag: nat, quorum: nat, r: Readings, context: ChainContext)
    ensures ContextIs(mode, lag, quorum, r, context)
       <==> && HeightOutcome(r.latest, lag, quorum, Some(context.latestBlock))
            && match mode
               case Confirmations(_) => context.finalizedBlock == None
               case FinalizedTag =>
                 && context.finalizedBlock != None && HeightOutcome(r.finalized, lag, quorum, context.finalizedBlock)
                 && exists block: Block ::
                      FirstAgreed(r.finalizedBlock(context.finalizedBlock.value), Same, quorum) == Some(Some(block))
  {
    hide HeightOutcome, FirstAgreed;
  }

  /** Some provider outside `faulty` answered so. */
  ghost predicate CorrectlySaid<T>(attempts: seq<seq<Option<T>>>, faulty: set<nat>, says: T -> bool) {
    exists a: nat, i: nat ::
      a < |attempts| && i < |attempts[a]| && i !in faulty && attempts[a][i].Some? && says(attempts[a][i].value)
  }

  lemma {:induction false} AgreedIsCorrectlySaid<T(!new)>(
    attempts: seq<seq<Option<T>>>, quorum: nat, faulty: set<nat>, says: T -> bool)
    requires FirstAgreed(attempts, Same, quorum).Some? && says(FirstAgreed(attempts, Same, quorum).value)
    requires |faulty| < quorum
    ensures CorrectlySaid(attempts, faulty, says)
  {
    var v := Agreed(attempts[0], Same, quorum);
    if v.Some? {
      var i := QuorumHasCorrectVoter(attempts[0], Same, quorum, v.value, faulty);
      assert attempts[0][i].Some?;
    } else {
      AgreedIsCorrectlySaid(attempts[1..], quorum, faulty, says);
      var a: nat, i: nat :| a < |attempts[1..]| && i < |attempts[1..][a]| && i !in faulty && attempts[1..][a][i].Some?
                            && says(attempts[1..][a][i].value);
      assert attempts[1..][a] == attempts[a + 1];
    }
  }

  lemma HeightIsCorrectlySaid(attempts: seq<seq<Option<int>>>, lag: nat, quorum: nat, h: int, faulty: set<nat>)
    requires HeightOutcome(attempts, lag, quorum, Some(h)) && |faulty| < quorum
    ensures CorrectlySaid(attempts, faulty, height => height >= h)
  {
    var a: nat :| a < |attempts| && LeastHeight(attempts[a], lag, quorum, h);
    var window := Window(attempts[a], h, lag);
    if window <= faulty { SmallerSubset(window, faulty); }
    var i :| i in window && i !in faulty;
    assert attempts[a][i].Some?;
  }

  lemma FinalizedParts(
    mode: Finality, lag: nat, quorum: nat, r: Readings, note: Note, mark: Label)
    returns (receipt: Receipt, context: ChainContext, block: Block)
    requires LabelIs(mode, lag, quorum, r, note, mark) && mark.status == FINALIZED
    ensures FirstAgreed(r.receipt, Same, quorum) == Some(Some(receipt)) && receipt.status == Some(1)
            && mark.blockNumber == receipt.blockNumber
    ensures ContextIs(mode, lag, quorum, r, context) && ChainStatusFor(mode, receipt, context) == FINALIZED
    ensures FirstAgreed(r.block(mark.blockNumber), Same, quorum) == Some(Some(block))
            && block.timestamp == mark.timestamp
  {
    hide ContextIs, FirstAgreed;
    context :| ContextIs(mode, lag, quorum, r, context) && LabelIn(mode, quorum, r, note, context, mark);
    receipt, block := FirstAgreed(r.receipt, Same, quorum).value.value,
        FirstAgreed(r.block(mark.blockNumber), Same, quorum).value.value;
  }

  /** The height that a finalized note needs of some correct provider. */
  ghost predicate HeightIsVouchedFor(mode: Finality, r: Readings, faulty: set<nat>, blockNumber: nat) {
    match mode
    case FinalizedTag => CorrectlySaid(r.finalized, faulty, height => height >= blockNumber)
    case Confirmations(required) => CorrectlySaid(r.latest, faulty, height => height - blockNumber + 1 >= required)
  }

  lemma HigherIsSaid(attempts: seq<seq<Option<int>>>, faulty: set<nat>, h: int, low: int, says: int -> bool)
    requires CorrectlySaid(attempts, faulty, height => height >= h) && h >= low && forall x: int :: x >= low ==> says(x)
    ensures CorrectlySaid(attempts, faulty, says)
  {
  }

  lemma FinalizedHeight(
    mode: Finality, lag: nat, quorum: nat, r: Readings, receipt: Receipt, context: ChainContext, faulty: set<nat>)
    requires ContextIs(mode, lag, quorum, r, context) && ChainStatusFor(mode, receipt, context) == FINALIZED
    requires |faulty| < quorum
    ensures HeightIsVouchedFor(mode, r, faulty, receipt.blockNumber)
  {
    hide CorrectlySaid, HeightOutcome;
    match mode
    case FinalizedTag =>
      var says := (height: int) => height >= receipt.blockNumber;
      HeightIsCorrectlySaid(r.finalized, lag, quorum, context.finalizedBlock.value, faulty);
      HigherIsSaid(r.finalized, faulty, context.finalizedBlock.value, receipt.blockNumber, says);
    case Confirmations(required) =>
      var says := (height: int) => height - receipt.blockNumber + 1 >= required;
      HeightIsCorrectlySaid(r.latest, lag, quorum, context.latestBlock, faulty);
      HigherIsSaid(r.latest, faulty, context.latestBlock, receipt.blockNumber + required - 1, says);
  }

  /** A note is labelled FINALIZED only on the word of correct providers, if fewer than a majority are faulty: one
      returned a successful receipt, one reports a finalized height at or above its block, or in the other mode a
      latest height that gives it the required confirmations, and one returned, asked for the block that the
      note is given, a block with the time that it is given. The answers are found in the readings that were made,
      whatever was recorded before. */
  lemma FinalizedRestsOnCorrectProviders(
    mode: Finality, lag: nat, providers: nat, r: Readings, note: Note, mark: Label, faulty: set<nat>)
    returns (receipt: Receipt)
    requires |faulty| < Majority(providers)
    requires LabelIs(mode, lag, Majority(providers), r, note, mark) && mark.status == FINALIZED
    ensures receipt.status == Some(1) && mark.blockNumber == receipt.blockNumber
    ensures CorrectlySaid(r.receipt, faulty, answer => answer == Some(receipt))
    ensures HeightIsVouchedFor(mode, r, faulty, receipt.blockNumber)
    ensures CorrectlySaid(r.block(mark.blockNumber), faulty,
              (answer: Option<Block>) => answer.Some? && answer.value.timestamp == mark.timestamp)
  {
    hide LabelIs, ContextIs, CorrectlySaid, HeightIsVouchedFor, FirstAgreed, ChainStatusFor;
    var quorum := Majority(providers);
    var context, block;
    receipt, context, block := FinalizedParts(mode, lag, quorum, r, note, mark);
    var holds := (answer: Option<Receipt>) => answer == Some(receipt);
    AgreedIsCorrectlySaid(r.receipt, quorum, faulty, holds);
    var dated := (answer: Option<Block>) => answer.Some? && answer.value.timestamp == mark.timestamp;
    AgreedIsCorrectlySaid(r.block(mark.blockNumber), quorum, faulty, dated);
    FinalizedHeight(mode, lag, quorum, r, receipt, context, faulty);
  }
}
